/** The step orchestrator: the controller object that owns the per-scene
    state (step counter, goal, head tilt, current scene) and runs one step as
    guard, action resolution, counter increment, parameter conversion,
    translation, simulator call and state reconstruction, in that order. */
module Controller {
  import opened Wrappers
  import opened Actions
  import opened Params
  import opened Goals
  import opened Objects

  /** The closed sets the controller takes from its enums: the action
      vocabulary in enum order, the material names and the return-status
      names. */
  datatype Vocabulary = Vocabulary(actions: seq<string>, materials: set<string>, returnStatuses: set<string>)

  /** What the controller sends to the simulator. The constant fields every
      request carries (continuous movement, grid size, reach, rendering
      flags) are left implicit. */
  datatype SimRequest = Initialize(scene: SceneConfig) | Act(action: string, params: StepParams)

  datatype StepOutput = StepOutput(
    actionList: seq<string>,
    goal: Option<Goal>,
    headTilt: real,
    objectList: seq<WorldObject>,
    pose: string,
    returnStatus: string,
    stepNumber: nat)

  /** The exceptions that can escape `start_scene` and `step`. */
  datatype ControllerError =
    | NoSceneStarted          // step before any scene: the goal is still None
    | GoalKeyMissing(key: string)
    | ColorMissing(objectId: string)

  /** `Refused` is the `None` returned once the scene is past its last step. */
  datatype StepReply = Refused | Done(output: StepOutput) | Raised(error: ControllerError)

  /** The step output for the event the simulator returned. It is built
      exactly when every object has a colour; it reports the given counter
      and goal, the goal's whitelist for that counter, the camera pitch, the
      standing pose, the objects sorted by uuid, and a return status that is
      known or `UNDEFINED`. */
  function BuildOutput(goal: Option<Goal>, stepNumber: nat, event: SceneEvent, vocab: Vocabulary): (r: Result<StepOutput, ControllerError>)
    ensures r.Ok? <==> forall i :: 0 <= i < |event.objects| ==> event.objects[i].objectId in event.objectIdToColor
    ensures r.Err? ==>
      && r.error.ColorMissing? && r.error.objectId !in event.objectIdToColor
      && r.error.objectId == RetrieveObjectList(event, vocab.materials).error
    ensures r.Ok? ==>
      && r.value.objectList == RetrieveObjectList(event, vocab.materials).value
      && r.value.returnStatus == RetrieveReturnStatus(event.lastActionStatus, vocab.returnStatuses)
    ensures r.Ok? ==>
      && r.value.stepNumber == stepNumber
      && r.value.goal == goal
      && r.value.actionList == RetrieveActionList(goal, stepNumber, vocab.actions)
      && r.value.headTilt == event.cameraHorizon
      && r.value.pose == Stand
      && SortedByUuid(r.value.objectList)
      && |r.value.objectList| == |event.objects|
      && (r.value.returnStatus == Undefined || r.value.returnStatus in vocab.returnStatuses)
  {
    var actionList := RetrieveActionList(goal, stepNumber, vocab.actions);
    var headTilt := RetrieveHeadTilt(event);
    match RetrieveObjectList(event, vocab.materials)
    case Err(id) => Err(ColorMissing(id))
    case Ok(objects) =>
      Ok(StepOutput(actionList, goal, headTilt, objects, RetrievePose(event),
                    RetrieveReturnStatus(event.lastActionStatus, vocab.returnStatuses), stepNumber))
  }

  /** `reply` reports `out`; the head tilt is stored only when an output was built. */
  predicate Reported(out: Result<StepOutput, ControllerError>, reply: StepReply, tilt: real, oldTilt: real) {
    && (out.Ok? ==> reply == Done(out.value) && tilt == out.value.headTilt)
    && (out.Err? ==> reply == Raised(out.error) && tilt == oldTilt)
  }

  /** The guard: a last step is set and the counter is strictly past it. */
  predicate Exhausted(goal: Goal, stepNumber: nat) {
    goal.lastStep.Some? && goal.lastStep.value < stepNumber
  }

  /** The largest value the step counter can reach with last step `lastStep`. */
  function StepCeiling(lastStep: int): nat {
    if lastStep < 0 then 0 else lastStep + 1
  }

  /** The action and keywords a step runs: the single-string form is split
      by `parse`, then an action outside the vocabulary becomes `Pass`. */
  function ResolveAction(action: string, kwargs: Kwargs, vocab: Vocabulary, parse: string -> (string, Kwargs)): (r: (string, Kwargs))
    ensures r.0 in vocab.actions || r.0 == PassAction
    ensures ',' !in action ==> r.1 == kwargs && r.0 == if action in vocab.actions then action else PassAction
    ensures ',' in action ==>
      && r.1 == parse(action).1
      && r.0 == if parse(action).0 in vocab.actions then parse(action).0 else PassAction
  {
    var split := if ',' in action then parse(action) else (action, kwargs);
    if split.0 in vocab.actions then split else (PassAction, split.1)
  }

  /** The request a step sends once past the guard. Conversion sees the
      abstract action name; translation happens afterwards. */
  function StepRequest(action: string, kwargs: Kwargs, vocab: Vocabulary,
                       parse: string -> (string, Kwargs), noise: Option<Noise>): (r: SimRequest)
    ensures var resolved := ResolveAction(action, kwargs, vocab, parse);
      && r.Act?
      && r.action == ToAi2thor(resolved.0)
      && r.params == ConvertParams(resolved.0, resolved.1, noise)
    ensures r.action in OverrideTargets || r.action in vocab.actions || r.action == PassAction
    ensures noise.None? ==> MinHorizon <= r.params.horizon <= MaxHorizon
  {
    var resolved := ResolveAction(action, kwargs, vocab, parse);
    Act(ToAi2thor(resolved.0), ConvertParams(resolved.0, resolved.1, noise))
  }

  /** An unknown action reaches the simulator as `Pass`, never under its own name. */
  lemma UnknownActionSentAsPass(action: string, kwargs: Kwargs, vocab: Vocabulary, parse: string -> (string, Kwargs))
    requires ',' !in action && action !in vocab.actions
    ensures ResolveAction(action, kwargs, vocab, parse) == (PassAction, kwargs)
    ensures ToAi2thor(ResolveAction(action, kwargs, vocab, parse).0) == PassAction
  {
  }

  class Ai2thorController {
    const vocab: Vocabulary
    /** The simulator: given every request of the session so far, the event
        answering the last one. */
    const simulator: seq<SimRequest> -> SceneEvent
    /** Splits the single-string form `"Action, key=value, ..."`. */
    const parseCommand: string -> (string, Kwargs)

    var enableNoise: bool
    var currentScene: Option<SceneConfig>
    var headTilt: real
    var stepNumber: nat
    var goal: Option<Goal>
    /** The requests sent to the simulator so far, oldest first. */
    var sent: seq<SimRequest>

    /** Before any scene the counter is 0; once a goal has a last step, the
        counter never exceeds max(last step + 1, 0). */
    ghost predicate Valid()
      reads this
    {
      && (goal.None? ==> stepNumber == 0)
      && (goal.Some? && goal.value.lastStep.Some? ==> stepNumber <= StepCeiling(goal.value.lastStep.value))
    }

    constructor(vocab: Vocabulary, simulator: seq<SimRequest> -> SceneEvent,
                parseCommand: string -> (string, Kwargs), enableNoise: bool)
      ensures Valid()
      ensures this.vocab == vocab && this.simulator == simulator && this.parseCommand == parseCommand
      ensures this.enableNoise == enableNoise && currentScene.None? && headTilt == 0.0
      ensures stepNumber == 0 && goal.None? && sent == []
    {
      this.vocab := vocab;
      this.simulator := simulator;
      this.parseCommand := parseCommand;
      sent := [];
      new;
      OnInit(enableNoise);
    }

    /** Reset the controller's own state; the simulator session is kept. */
    method OnInit(enableNoise: bool)
      modifies this
      ensures Valid()
      ensures this.enableNoise == enableNoise && currentScene.None? && headTilt == 0.0
      ensures stepNumber == 0 && goal.None? && sent == old(sent)
    {
      this.enableNoise := enableNoise;
      currentScene := None;
      headTilt := 0.0;
      stepNumber := 0;
      goal := None;
    }

    /** Build the output for `event` and remember its head tilt. */
    method WrapOutput(event: SceneEvent) returns (reply: StepReply)
      modifies this`headTilt
      ensures Reported(BuildOutput(goal, stepNumber, event, vocab), reply, headTilt, old(headTilt))
    {
      var out := BuildOutput(goal, stepNumber, event, vocab);
      if out.Err? {
        return Raised(out.error);
      }
      headTilt := out.value.headTilt;
      reply := Done(out.value);
    }

    /** Start a scene: the counter goes back to 0 and the goal is resolved
        from the configuration before the simulator is initialised with it. */
    method StartScene(config: SceneConfig) returns (reply: StepReply)
      requires Valid()
      modifies this
      ensures Valid()
      ensures currentScene == Some(config) && stepNumber == 0 && enableNoise == old(enableNoise)
      ensures RetrieveGoal(config).Err? ==>
        && reply == Raised(GoalKeyMissing(RetrieveGoal(config).error))
        && goal == old(goal) && sent == old(sent) && headTilt == old(headTilt)
      ensures RetrieveGoal(config).Ok? ==>
        && goal == Some(RetrieveGoal(config).value)
        && sent == old(sent) + [Initialize(config)]
        && Reported(BuildOutput(goal, 0, simulator(sent), vocab), reply, headTilt, old(headTilt))
      ensures reply != Refused
    {
      currentScene := Some(config);
      stepNumber := 0;
      var g := RetrieveGoal(config);
      if g.Err? {
        return Raised(GoalKeyMissing(g.error));
      }
      goal := Some(g.value);
      sent := sent + [Initialize(config)];
      reply := WrapOutput(simulator(sent));
    }

    /** Run one action. Past the last step nothing happens and the reply is
        `Refused`; otherwise the counter goes up by exactly one, whether or
        not the action was replaced by `Pass`, and the parameters are
        converted from the abstract name before it is translated. */
    method Step(action: string, kwargs: Kwargs, noise: Noise) returns (reply: StepReply)
      requires Valid()
      modifies this
      ensures Valid()
      ensures old(goal).None? ==> reply == Raised(NoSceneStarted) && unchanged(this)
      ensures old(goal).Some? ==>
        && goal == old(goal)
        && (reply == Refused <==> Exhausted(old(goal).value, old(stepNumber)))
        && stepNumber == if reply == Refused then old(stepNumber) else old(stepNumber) + 1
      ensures old(goal).Some? && Exhausted(old(goal).value, old(stepNumber)) ==> reply == Refused && unchanged(this)
      ensures old(goal).Some? && !Exhausted(old(goal).value, old(stepNumber)) ==>
        && goal == old(goal) && currentScene == old(currentScene) && enableNoise == old(enableNoise)
        && stepNumber == old(stepNumber) + 1
        && sent == old(sent) + [StepRequest(action, kwargs, vocab, parseCommand, ActiveNoise(enableNoise, noise))]
        && Reported(BuildOutput(goal, stepNumber, simulator(sent), vocab), reply, headTilt, old(headTilt))
    {
      if goal.None? {
        return Raised(NoSceneStarted);
      }
      if Exhausted(goal.value, stepNumber) {
        return Refused;
      }
      stepNumber := stepNumber + 1;
      sent := sent + [StepRequest(action, kwargs, vocab, parseCommand, ActiveNoise(enableNoise, noise))];
      reply := WrapOutput(simulator(sent));
    }
  }

  /** A scene whose goal sets last step 2 accepts three steps and refuses the
      fourth: the guard only refuses once the counter is past the last step. */
  method LastStepScenario(vocab: Vocabulary, simulator: seq<SimRequest> -> SceneEvent,
                          parse: string -> (string, Kwargs))
    returns (replies: seq<StepReply>, counter: nat)
    ensures |replies| == 4
    ensures forall i :: 0 <= i < 3 ==> replies[i] != Refused
    ensures replies[3] == Refused
    ensures counter == 3
  {
    var c := new Ai2thorController(vocab, simulator, parse, false);
    var config := SceneConfig(None, Some(GoalConfig(None, None, Some(2), None, None, None)));
    var goal := Goal(None, [], Some(2), map[], [], []);
    assert RetrieveGoal(config) == Ok(goal);
    var start := c.StartScene(config);
    assert c.goal == Some(goal) && c.stepNumber == 0;
    var quiet := Noise(0.0, 0.0, 0.0);
    replies := [];
    for k := 0 to 3
      invariant c.Valid() && c.goal == Some(goal) && c.stepNumber == k
      invariant |replies| == k && forall i :: 0 <= i < k ==> replies[i] != Refused
    {
      var r := c.Step("MoveAhead", map[], quiet);
      replies := replies + [r];
    }
    var last := c.Step("MoveAhead", map[], quiet);
    replies := replies + [last];
    counter := c.stepNumber;
  }
}
