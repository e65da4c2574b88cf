/** The validation and normalisation unit: a loosely typed keyword map
    becomes the complete parameter record of one simulator step.

    Every numeric field is either what the caller supplied (when it is a
    number and, for horizon, amount and force, within range) or a fixed
    default; a bad value is replaced by the default, never clamped to the
    nearest bound. */
module Params {
  import opened Wrappers
  import opened Actions

  /** A keyword value as the caller passed it. `Num` is a value the
      number test accepts, with its numeric value; `Str` and `Other` are
      values it rejects. */
  datatype KwValue = Num(n: real) | Str(s: string) | Other

  type Kwargs = map<string, KwValue>

  datatype Vec3 = Vec3(x: real, y: real, z: real)

  /** Rotation is sent as a vector with only its yaw (`y`) component. */
  datatype YawVector = YawVector(y: real)

  /** Three samples of the noise source, used in this order when noise is on. */
  datatype Noise = Noise(rotation: real, horizon: real, moveMagnitude: real)

  /** The noise a step uses: its samples when noise is enabled, none otherwise. */
  function ActiveNoise(enabled: bool, sample: Noise): Option<Noise> {
    if enabled then Some(sample) else None
  }

  datatype StepParams = StepParams(
    objectId: Option<KwValue>,
    receptacleObjectId: Option<KwValue>,
    rotation: YawVector,
    horizon: real,
    moveMagnitude: real,
    objectDirection: Vec3,
    receptacleObjectDirection: Vec3)

  const MaxMoveDistance: real := 0.5
  const MaxBabyForce: real := 25.0

  const DefaultHorizon: real := 0.0
  const DefaultRotation: real := 0.0
  const DefaultForce: real := 0.5
  const DefaultAmount: real := 0.5
  const DefaultDirection: real := 0.0
  const DefaultObjectMoveAmount: real := 1.0

  /** Declared alongside the other bounds but never checked. */
  const MaxRotation: real := 360.0
  const MinRotation: real := -360.0
  const MaxHorizon: real := 180.0
  const MinHorizon: real := -180.0
  const MaxForce: real := 1.0
  const MinForce: real := 0.0
  const MaxAmount: real := 1.0
  const MinAmount: real := 0.0

  const RotationKey: string := "rotation"
  const HorizonKey: string := "horizon"
  const ForceKey: string := "force"
  const AmountKey: string := "amount"
  const ObjectDirectionXKey: string := "objectDirectionX"
  const ObjectDirectionYKey: string := "objectDirectionY"
  const ObjectDirectionZKey: string := "objectDirectionZ"
  const ReceptacleDirectionXKey: string := "receptacleObjectDirectionX"
  const ReceptacleDirectionYKey: string := "receptacleObjectDirectionY"
  const ReceptacleDirectionZKey: string := "receptacleObjectDirectionZ"
  const ObjectIdKey: string := "objectId"
  const ReceptacleObjectIdKey: string := "receptacleObjectId"

  // ---------------------------------------------------------------------
  // Reference definitions: what the caller supplied, read off the map.
  // ---------------------------------------------------------------------

  /** The number the caller supplied under `key`, if it supplied one. */
  function Supplied(kwargs: Kwargs, key: string): Option<real> {
    if key in kwargs && kwargs[key].Num? then Some(kwargs[key].n) else None
  }

  /** The number supplied under `key` when it also lies in `[lo, hi]`. */
  function Accepted(kwargs: Kwargs, key: string, lo: real, hi: real): Option<real> {
    match Supplied(kwargs, key)
    case Some(v) => if lo <= v <= hi then Some(v) else None
    case None => None
  }

  // ---------------------------------------------------------------------
  // The conversion, step by step as the controller performs it.
  // ---------------------------------------------------------------------

  /** Look `key` up, with a numeric value standing in when it is absent. */
  function Get(kwargs: Kwargs, key: string, default: real): KwValue {
    if key in kwargs then kwargs[key] else Num(default)
  }

  /** Keep a value the number test accepts, otherwise use `default`. */
  function NumberOr(v: KwValue, default: real): real {
    if v.Num? then v.n else default
  }

  /** The range test: the value itself when `lo <= v <= hi`, else `default`. */
  function InRangeOr(v: real, lo: real, hi: real, default: real): real {
    if lo <= v <= hi then v else default
  }

  /** A keyword passed through untouched, `None` when absent. */
  function Passed(kwargs: Kwargs, key: string): Option<KwValue> {
    if key in kwargs then Some(kwargs[key]) else None
  }

  function Direction(kwargs: Kwargs, kx: string, ky: string, kz: string): Vec3 {
    Vec3(NumberOr(Get(kwargs, kx, DefaultDirection), DefaultDirection),
         NumberOr(Get(kwargs, ky, DefaultDirection), DefaultDirection),
         NumberOr(Get(kwargs, kz, DefaultDirection), DefaultDirection))
  }

  /** The whole conversion. `missingAmount` is what stands in for an absent
      `amount` before the number test; `noise` is `None` when noise is off. */
  function ConvertWith(action: string, kwargs: Kwargs, noise: Option<Noise>, missingAmount: real): StepParams {
    var rotation := NumberOr(Get(kwargs, RotationKey, DefaultRotation), DefaultRotation);
    var horizon := NumberOr(Get(kwargs, HorizonKey, DefaultHorizon), DefaultHorizon);
    var amount := NumberOr(Get(kwargs, AmountKey, missingAmount),
                           if action in ObjectMoveActions then DefaultObjectMoveAmount else DefaultAmount);
    var force := NumberOr(Get(kwargs, ForceKey, DefaultForce), DefaultForce);
    var horizon' := InRangeOr(horizon, MinHorizon, MaxHorizon, DefaultHorizon);
    var amount' := InRangeOr(amount, MinAmount, MaxAmount, DefaultAmount);
    var force' := InRangeOr(force, MinForce, MaxForce, DefaultForce);
    var m0 := MaxMoveDistance;
    var m1 := if action in ForceActions then force' * MaxBabyForce else m0;
    var m2 := if action in ObjectMoveActions then amount' else m1;
    var m3 := if action in MoveActions then amount' * MaxMoveDistance else m2;
    var rotation'' := if noise.Some? then rotation * (1.0 + noise.value.rotation) else rotation;
    var horizon'' := if noise.Some? then horizon' * (1.0 + noise.value.horizon) else horizon';
    var magnitude := if noise.Some? then m3 * (1.0 + noise.value.moveMagnitude) else m3;
    StepParams(
      Passed(kwargs, ObjectIdKey),
      Passed(kwargs, ReceptacleObjectIdKey),
      YawVector(rotation''),
      horizon'',
      magnitude,
      Direction(kwargs, ObjectDirectionXKey, ObjectDirectionYKey, ObjectDirectionZKey),
      Direction(kwargs, ReceptacleDirectionXKey, ReceptacleDirectionYKey, ReceptacleDirectionZKey))
  }

  /** `p` carries the caller's identifiers and direction numbers, the
      caller's rotation whatever its size, and a horizon that is the caller's
      when in range and 0 otherwise. Shared by both conversions below. */
  ghost predicate CommonFields(kwargs: Kwargs, p: StepParams) {
    && p.objectId == Passed(kwargs, ObjectIdKey)
    && p.receptacleObjectId == Passed(kwargs, ReceptacleObjectIdKey)
    && p.rotation.y == Supplied(kwargs, RotationKey).GetOr(DefaultRotation)
    && p.horizon == Accepted(kwargs, HorizonKey, MinHorizon, MaxHorizon).GetOr(DefaultHorizon)
    && p.objectDirection == Vec3(Supplied(kwargs, ObjectDirectionXKey).GetOr(DefaultDirection),
                                 Supplied(kwargs, ObjectDirectionYKey).GetOr(DefaultDirection),
                                 Supplied(kwargs, ObjectDirectionZKey).GetOr(DefaultDirection))
    && p.receptacleObjectDirection == Vec3(Supplied(kwargs, ReceptacleDirectionXKey).GetOr(DefaultDirection),
                                           Supplied(kwargs, ReceptacleDirectionYKey).GetOr(DefaultDirection),
                                           Supplied(kwargs, ReceptacleDirectionZKey).GetOr(DefaultDirection))
  }

  /** `moveMagnitude` for every action outside the open/close class: a force
      scaled to 25, an amount scaled to the step length, or the step length. */
  ghost predicate MagnitudeOutsideOpenClose(action: string, kwargs: Kwargs, p: StepParams) {
    && (action in ForceActions ==>
          p.moveMagnitude == Accepted(kwargs, ForceKey, MinForce, MaxForce).GetOr(DefaultForce) * MaxBabyForce)
    && (action in MoveActions ==>
          p.moveMagnitude == Accepted(kwargs, AmountKey, MinAmount, MaxAmount).GetOr(DefaultAmount) * MaxMoveDistance)
    && (action !in ForceActions && action !in ObjectMoveActions && action !in MoveActions ==>
          p.moveMagnitude == MaxMoveDistance)
  }

  /** The conversion exactly as the controller performs it. With noise off
      the range checks keep the horizon within [-180, 180] and every move
      magnitude within [0, 25]. */
  function ConvertParamsAsWritten(action: string, kwargs: Kwargs, noise: Option<Noise>): (p: StepParams)
    ensures noise.None? ==> MinHorizon <= p.horizon <= MaxHorizon && 0.0 <= p.moveMagnitude <= MaxBabyForce
  {
    ActionClassesDisjoint(action);
    ConvertWith(action, kwargs, noise, DefaultAmount)
  }

  /** The conversion with the documented open/close default applied: an
      absent or non-numeric `amount` means 1 for open and close. Everything
      else is as written, and so are the ranges. */
  function ConvertParams(action: string, kwargs: Kwargs, noise: Option<Noise>): (p: StepParams)
    ensures noise.None? ==> MinHorizon <= p.horizon <= MaxHorizon && 0.0 <= p.moveMagnitude <= MaxBabyForce
    ensures action !in ObjectMoveActions || AmountKey in kwargs ==> p == ConvertParamsAsWritten(action, kwargs, noise)
  {
    ActionClassesDisjoint(action);
    ConvertWith(action, kwargs, noise,
                if action in ObjectMoveActions then DefaultObjectMoveAmount else DefaultAmount)
  }

  /** What the written conversion yields with noise off. An absent `amount`
      is looked up with 0.5 standing in, and 0.5 passes the number test, so
      open and close get 1 only when `amount` is present and not a number;
      an out-of-range amount falls back to 0.5 for them too. */
  lemma AsWrittenFieldRules(action: string, kwargs: Kwargs)
    ensures var p := ConvertParamsAsWritten(action, kwargs, None);
      && CommonFields(kwargs, p)
      && MagnitudeOutsideOpenClose(action, kwargs, p)
      && (action in ObjectMoveActions ==>
            p.moveMagnitude ==
              if AmountKey in kwargs && !kwargs[AmountKey].Num? then DefaultObjectMoveAmount
              else Accepted(kwargs, AmountKey, MinAmount, MaxAmount).GetOr(DefaultAmount))
  {
  }

  /** What the corrected conversion yields with noise off: the same fields,
      except that open and close without a numeric amount move by 1. */
  lemma FieldRules(action: string, kwargs: Kwargs)
    ensures var p := ConvertParams(action, kwargs, None);
      && CommonFields(kwargs, p)
      && MagnitudeOutsideOpenClose(action, kwargs, p)
      && (action in ObjectMoveActions ==>
            p.moveMagnitude ==
              if Supplied(kwargs, AmountKey).None? then DefaultObjectMoveAmount
              else Accepted(kwargs, AmountKey, MinAmount, MaxAmount).GetOr(DefaultAmount))
  {
  }

  /** Noise scales rotation, horizon and `moveMagnitude` of the noise-free
      result by one plus its sample, and touches nothing else. */
  lemma NoiseScales(action: string, kwargs: Kwargs, n: Noise)
    ensures var quiet := ConvertParams(action, kwargs, None);
      ConvertParams(action, kwargs, Some(n)) ==
        quiet.(rotation := YawVector(quiet.rotation.y * (1.0 + n.rotation)),
               horizon := quiet.horizon * (1.0 + n.horizon),
               moveMagnitude := quiet.moveMagnitude * (1.0 + n.moveMagnitude))
  {
  }

  /** The two conversions differ only for open or close without an amount,
      where the written code yields 0.5 and the documented default is 1. */
  lemma OpenCloseMissingAmount(action: string, kwargs: Kwargs)
    requires action in ObjectMoveActions && AmountKey !in kwargs
    ensures ConvertParamsAsWritten(action, kwargs, None).moveMagnitude == DefaultAmount
    ensures ConvertParams(action, kwargs, None).moveMagnitude == DefaultObjectMoveAmount
  {
  }

  /** Concrete instance: `OpenObject` on an object with no amount given. */
  lemma OpenObjectWithoutAmount()
    ensures ConvertParamsAsWritten(OpenObject, map[ObjectIdKey := Str("door")], None).moveMagnitude == 0.5
    ensures ConvertParams(OpenObject, map[ObjectIdKey := Str("door")], None).moveMagnitude == 1.0
  {
    OpenCloseMissingAmount(OpenObject, map[ObjectIdKey := Str("door")]);
  }
}
