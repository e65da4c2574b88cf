/** The state reconstructor: the simulator's per-object metadata becomes the
    list of world objects the agent sees, ordered by uuid, and its last
    action status becomes a return status that is always defined. */
module Objects {
  import opened Wrappers
  import opened Text
  import opened Params

  const Undefined: string := "UNDEFINED"
  /** The only pose the simulator can report so far. */
  const Stand: string := "STAND"

  datatype Rgb = Rgb(r: int, g: int, b: int)

  /** One entry of the simulator's object metadata. */
  datatype ObjectMetadata = ObjectMetadata(
    objectId: string,
    salientMaterials: Option<seq<string>>,
    direction: Vec3,
    distanceXZ: real,
    isPickedUp: bool,
    mass: real,
    points: seq<Vec3>,
    visibleInCamera: bool)

  /** What the simulator returns for one step; the frames are not modelled. */
  datatype SceneEvent = SceneEvent(
    cameraHorizon: real,
    objects: seq<ObjectMetadata>,
    lastActionStatus: Option<string>,
    objectIdToColor: map<string, Rgb>)

  datatype WorldObject = WorldObject(
    uuid: string,
    color: Rgb,
    direction: Vec3,
    distance: real,
    held: bool,
    mass: real,
    materialList: Option<seq<string>>,
    pointList: seq<Vec3>,
    visible: bool)

  // ---------------------------------------------------------------------
  // Materials
  // ---------------------------------------------------------------------

  /** Upper-case each name and keep those the material enum knows, in order. */
  function KnownMaterials(ms: seq<string>, known: set<string>): (r: seq<string>)
    ensures |r| <= |ms|
    ensures forall x :: x in r ==> x in known
    ensures forall i :: 0 <= i < |ms| && Upper(ms[i]) in known ==> Upper(ms[i]) in r
    ensures forall x :: x in r ==> exists i :: 0 <= i < |ms| && Upper(ms[i]) == x
  {
    if ms == [] then []
    else
      var u := Upper(ms[0]);
      var rest := KnownMaterials(ms[1..], known);
      assert forall i :: 1 <= i < |ms| ==> ms[i] == ms[1..][i - 1];
      if u in known then [u] + rest else rest
  }

  /** Adding a name at the end adds its upper-cased form at the end when it
      is known, and nothing otherwise: the filter keeps the order of the
      names and every repetition of a known one. */
  lemma {:induction false} KnownMaterialsAppend(ms: seq<string>, m: string, known: set<string>)
    ensures KnownMaterials(ms + [m], known) ==
            KnownMaterials(ms, known) + (if Upper(m) in known then [Upper(m)] else [])
    decreases |ms|
  {
    if ms != [] {
      assert (ms + [m])[0] == ms[0];
      assert (ms + [m])[1..] == ms[1..] + [m];
      KnownMaterialsAppend(ms[1..], m, known);
    }
  }

  /** The material list of an object: `None` when the simulator gave none or
      when no name survives the filter, never an empty list. */
  function MaterialList(raw: Option<seq<string>>, known: set<string>): (r: Option<seq<string>>)
    ensures r.None? <==> raw.None? || forall i :: 0 <= i < |raw.value| ==> Upper(raw.value[i]) !in known
    ensures r.Some? ==> r.value != [] && r.value == KnownMaterials(raw.value, known)
  {
    var l := if raw.Some? then KnownMaterials(raw.value, known) else [];
    if |l| == 0 then None
    else
      assert l[0] in l;
      Some(l)
  }

  // ---------------------------------------------------------------------
  // One object
  // ---------------------------------------------------------------------

  /** Convert one metadata entry. Its colour is looked up by object id; a
      missing entry raises, and the error carries the id. */
  function RetrieveObjectOutput(md: ObjectMetadata, colors: map<string, Rgb>, known: set<string>): (r: Result<WorldObject, string>)
    ensures r.Err? <==> md.objectId !in colors
    ensures r.Err? ==> r.error == md.objectId
    ensures r.Ok? ==>
      && r.value.uuid == md.objectId
      && r.value.color == colors[md.objectId]
      && r.value.visible == (md.visibleInCamera || md.isPickedUp)
      && r.value.held == md.isPickedUp
      && r.value.distance * MaxMoveDistance == md.distanceXZ
      && r.value.materialList == MaterialList(md.salientMaterials, known)
      && r.value.direction == md.direction
      && r.value.mass == md.mass
      && r.value.pointList == md.points
  {
    var materials := MaterialList(md.salientMaterials, known);
    if md.objectId !in colors then Err(md.objectId)
    else
      Ok(WorldObject(
        md.objectId,
        colors[md.objectId],
        md.direction,
        md.distanceXZ / MaxMoveDistance,
        md.isPickedUp,
        md.mass,
        materials,
        md.points,
        md.visibleInCamera || md.isPickedUp))
  }

  /** Convert every entry in order; the first entry without a colour raises. */
  function ConvertAll(mds: seq<ObjectMetadata>, colors: map<string, Rgb>, known: set<string>): (r: Result<seq<WorldObject>, string>)
    ensures r.Ok? <==> forall i :: 0 <= i < |mds| ==> mds[i].objectId in colors
    ensures r.Ok? ==> |r.value| == |mds|
    ensures r.Ok? ==> forall i :: 0 <= i < |mds| ==> RetrieveObjectOutput(mds[i], colors, known) == Ok(r.value[i])
    ensures r.Err? ==>
      exists i ::
        && 0 <= i < |mds|
        && mds[i].objectId == r.error
        && r.error !in colors
        && forall j :: 0 <= j < i ==> mds[j].objectId in colors
  {
    if mds == [] then Ok([])
    else
      assert forall i :: 1 <= i < |mds| ==> mds[i] == mds[1..][i - 1];
      match RetrieveObjectOutput(mds[0], colors, known)
      case Err(e) => Err(e)
      case Ok(o) =>
        match ConvertAll(mds[1..], colors, known)
        case Err(e) => Err(e)
        case Ok(rest) => Ok([o] + rest)
  }

  // ---------------------------------------------------------------------
  // Sorting by uuid
  // ---------------------------------------------------------------------

  ghost predicate SortedByUuid(s: seq<WorldObject>) {
    forall i, j :: 0 <= i < j < |s| ==> LexLe(s[i].uuid, s[j].uuid)
  }

  /** The objects of `s` whose uuid is `k`, in their order in `s`. */
  function WithUuid(s: seq<WorldObject>, k: string): seq<WorldObject> {
    if s == [] then []
    else (if s[0].uuid == k then [s[0]] else []) + WithUuid(s[1..], k)
  }

  /** Place `x` before the first element whose uuid is not smaller. */
  function InsertByUuid(x: WorldObject, s: seq<WorldObject>): seq<WorldObject> {
    if s == [] then [x]
    else if LexLe(x.uuid, s[0].uuid) then [x] + s
    else [s[0]] + InsertByUuid(x, s[1..])
  }

  lemma {:induction false} InsertPermutes(x: WorldObject, s: seq<WorldObject>)
    ensures multiset(InsertByUuid(x, s)) == multiset(s) + multiset{x}
  {
    if s != [] && !LexLe(x.uuid, s[0].uuid) {
      InsertPermutes(x, s[1..]);
      assert s == [s[0]] + s[1..];
    }
  }

  lemma {:induction false} InsertKeepsSorted(x: WorldObject, s: seq<WorldObject>)
    requires SortedByUuid(s)
    ensures SortedByUuid(InsertByUuid(x, s))
  {
    if s == [] {
    } else if LexLe(x.uuid, s[0].uuid) {
      forall j | 1 < j < |s| + 1 ensures LexLe(x.uuid, ([x] + s)[j].uuid) {
        LexLeTransitive(x.uuid, s[0].uuid, s[j - 1].uuid);
      }
    } else {
      LexLeTotal(x.uuid, s[0].uuid);
      var tail := InsertByUuid(x, s[1..]);
      InsertKeepsSorted(x, s[1..]);
      InsertPermutes(x, s[1..]);
      forall j | 0 <= j < |tail| ensures LexLe(s[0].uuid, tail[j].uuid) {
        assert tail[j] in multiset(tail);
        assert tail[j] == x || tail[j] in multiset(s[1..]);
        if tail[j] != x {
          var m :| 0 <= m < |s[1..]| && s[1..][m] == tail[j];
          assert s[m + 1] == tail[j];
        }
      }
    }
  }

  /** Inserting keeps, for every uuid, the objects with that uuid in the
      order they had with `x` in front: `x` goes before its equals. */
  lemma WithUuidCons(o: WorldObject, s: seq<WorldObject>, k: string)
    ensures WithUuid([o] + s, k) == (if o.uuid == k then [o] else []) + WithUuid(s, k)
  {
    assert ([o] + s)[1..] == s;
  }

  lemma {:induction false} InsertStable(x: WorldObject, s: seq<WorldObject>, k: string)
    ensures WithUuid(InsertByUuid(x, s), k) == WithUuid([x] + s, k)
  {
    if s != [] && !LexLe(x.uuid, s[0].uuid) {
      LexLeReflexive(x.uuid);
      var t := InsertByUuid(x, s[1..]);
      var rest := WithUuid(s[1..], k);
      assert InsertByUuid(x, s) == [s[0]] + t;
      WithUuidCons(s[0], t, k);
      InsertStable(x, s[1..], k);
      WithUuidCons(x, s[1..], k);
      assert s == [s[0]] + s[1..];
      WithUuidCons(s[0], s[1..], k);
      WithUuidCons(x, s, k);
      if x.uuid == k {
        assert WithUuid(InsertByUuid(x, s), k) == [x] + rest;
        assert WithUuid([x] + s, k) == [x] + rest;
      } else if s[0].uuid == k {
        assert WithUuid(InsertByUuid(x, s), k) == [s[0]] + rest;
        assert WithUuid([x] + s, k) == [s[0]] + rest;
      } else {
        assert WithUuid(InsertByUuid(x, s), k) == rest;
        assert WithUuid([x] + s, k) == rest;
      }
    }
  }

  /** A stable sort by uuid, as Python's `sorted` with a uuid key. */
  function SortByUuid(s: seq<WorldObject>): (r: seq<WorldObject>)
    ensures multiset(r) == multiset(s)
    ensures SortedByUuid(r)
  {
    if s == [] then []
    else
      assert s == [s[0]] + s[1..];
      var t := SortByUuid(s[1..]);
      InsertKeepsSorted(s[0], t);
      InsertPermutes(s[0], t);
      InsertByUuid(s[0], t)
  }

  /** Objects sharing a uuid keep their original relative order. */
  lemma {:induction false} SortStable(s: seq<WorldObject>, k: string)
    ensures WithUuid(SortByUuid(s), k) == WithUuid(s, k)
  {
    if s != [] {
      SortStable(s[1..], k);
      InsertStable(s[0], SortByUuid(s[1..]), k);
      assert ([s[0]] + SortByUuid(s[1..]))[1..] == SortByUuid(s[1..]);
    }
  }

  /** The object list of a step: every metadata entry converted, then sorted
      by uuid. Raises when some entry has no colour. */
  function RetrieveObjectList(event: SceneEvent, known: set<string>): (r: Result<seq<WorldObject>, string>)
    ensures r.Ok? <==> forall i :: 0 <= i < |event.objects| ==> event.objects[i].objectId in event.objectIdToColor
    ensures r.Ok? ==> SortedByUuid(r.value) && |r.value| == |event.objects|
    ensures r.Ok? ==>
      && ConvertAll(event.objects, event.objectIdToColor, known).Ok?
      && multiset(r.value) == multiset(ConvertAll(event.objects, event.objectIdToColor, known).value)
    ensures r.Err? ==>
      && ConvertAll(event.objects, event.objectIdToColor, known).Err?
      && r.error == ConvertAll(event.objects, event.objectIdToColor, known).error
  {
    match ConvertAll(event.objects, event.objectIdToColor, known)
    case Err(e) => Err(e)
    case Ok(l) =>
      var sorted := SortByUuid(l);
      assert |sorted| == |multiset(sorted)| == |multiset(l)| == |l|;
      Ok(sorted)
  }

  /** Each reported object is the conversion of some metadata entry (and so
      carries that entry's id, visibility rule, distance and materials). */
  lemma ObjectListMembers(event: SceneEvent, known: set<string>, o: WorldObject)
    requires RetrieveObjectList(event, known).Ok?
    requires o in RetrieveObjectList(event, known).value
    ensures exists i ::
      0 <= i < |event.objects| && RetrieveObjectOutput(event.objects[i], event.objectIdToColor, known) == Ok(o)
  {
    var r := RetrieveObjectList(event, known);
    var l := ConvertAll(event.objects, event.objectIdToColor, known).value;
    assert o in multiset(r.value);
    assert o in multiset(l);
    var i :| 0 <= i < |l| && l[i] == o;
  }

  /** Objects sharing a uuid are reported in the order of the metadata. */
  lemma ObjectListStable(event: SceneEvent, known: set<string>, k: string)
    requires RetrieveObjectList(event, known).Ok?
    ensures WithUuid(RetrieveObjectList(event, known).value, k) ==
            WithUuid(ConvertAll(event.objects, event.objectIdToColor, known).value, k)
  {
    SortStable(ConvertAll(event.objects, event.objectIdToColor, known).value, k);
  }

  // ---------------------------------------------------------------------
  // Return status, pose, head tilt
  // ---------------------------------------------------------------------

  /** The simulator's status string when it names a return status, and
      `UNDEFINED` when it is missing, empty or unknown. Never fails. */
  function RetrieveReturnStatus(status: Option<string>, statuses: set<string>): (r: string)
    ensures r == Undefined || (status == Some(r) && r in statuses && r != "")
    ensures status.Some? && status.value != "" && status.value in statuses ==> r == status.value
  {
    if status.Some? && |status.value| > 0 && status.value in statuses then status.value
    else Undefined
  }

  /** The simulator does not report a pose yet: every event reads as standing. */
  function RetrievePose(event: SceneEvent): (r: string)
    ensures r == Stand
  {
    Stand
  }

  /** The head tilt of a step is the camera pitch the simulator reports. */
  function RetrieveHeadTilt(event: SceneEvent): (r: real)
    ensures r == event.cameraHorizon
  {
    event.cameraHorizon
  }
}
