/** The goal resolver and the per-step action whitelist. A scene
    configuration may lack its goal or any field of it; the goal is built
    with defaults. Three list fields are read only when the configuration has
    a `type_list` entry, whichever of them is actually present. */
module Goals {
  import opened Wrappers

  /** A value of the goal's free-form metadata, as the scene file's JSON has it. */
  datatype MetadataValue =
    | JsonNull
    | JsonBool(b: bool)
    | JsonNumber(n: real)
    | JsonString(s: string)
    | JsonList(items: seq<MetadataValue>)
    | JsonObject(fields: map<string, MetadataValue>)

  /** The goal section of a scene configuration; `None` is an absent key. */
  datatype GoalConfig = GoalConfig(
    actionList: Option<seq<seq<string>>>,
    infoList: Option<seq<string>>,
    lastStep: Option<int>,
    metadata: Option<map<string, MetadataValue>>,
    taskList: Option<seq<string>>,
    typeList: Option<seq<string>>)

  datatype SceneConfig = SceneConfig(name: Option<string>, goal: Option<GoalConfig>)

  datatype Goal = Goal(
    actionList: Option<seq<seq<string>>>,
    infoList: seq<string>,
    lastStep: Option<int>,
    metadata: map<string, MetadataValue>,
    taskList: seq<string>,
    typeList: seq<string>)

  const EmptyGoalConfig: GoalConfig := GoalConfig(None, None, None, None, None, None)

  /** The goal used when the configuration says nothing about it. */
  const DefaultGoal: Goal := Goal(None, [], None, map[], [], [])

  function GoalConfigOf(scene: SceneConfig): GoalConfig {
    scene.goal.GetOr(EmptyGoalConfig)
  }

  /** Build the goal of a scene. The fields are read in the order action
      list, info list, last step, task list, type list, metadata; reading a
      key that is absent raises, and the error names that key. */
  function RetrieveGoal(scene: SceneConfig): (r: Result<Goal, string>)
    ensures var gc := GoalConfigOf(scene);
      r.Err? <==> gc.typeList.Some? && (gc.infoList.None? || gc.taskList.None?)
    ensures var gc := GoalConfigOf(scene);
      r.Err? ==> r.error == if gc.infoList.None? then "info_list" else "task_list"
    ensures var gc := GoalConfigOf(scene);
      r.Ok? ==> && r.value.actionList == gc.actionList
                && r.value.lastStep == gc.lastStep
                && r.value.metadata == gc.metadata.GetOr(map[])
                && r.value.typeList == gc.typeList.GetOr([])
                && r.value.infoList == (if gc.typeList.Some? then gc.infoList.value else [])
                && r.value.taskList == (if gc.typeList.Some? then gc.taskList.value else [])
  {
    var gc := GoalConfigOf(scene);
    var hasTypes := gc.typeList.Some?;
    if hasTypes && gc.infoList.None? then Err("info_list")
    else if hasTypes && gc.taskList.None? then Err("task_list")
    else
      Ok(Goal(
        gc.actionList,
        if hasTypes then gc.infoList.value else [],
        gc.lastStep,
        gc.metadata.GetOr(map[]),
        if hasTypes then gc.taskList.value else [],
        gc.typeList.GetOr([])))
  }

  /** A scene without a goal section gets the default goal. */
  lemma NoGoalGivesDefault(name: Option<string>)
    ensures RetrieveGoal(SceneConfig(name, None)) == Ok(DefaultGoal)
  {
  }

  /** The gating quirk: info and task lists given without a type list are
      dropped, and the goal is still built. */
  lemma ListsIgnoredWithoutTypeList(scene: SceneConfig)
    requires GoalConfigOf(scene).typeList.None?
    ensures RetrieveGoal(scene).Ok?
    ensures RetrieveGoal(scene).value.infoList == [] && RetrieveGoal(scene).value.taskList == []
  {
  }

  /** The actions an agent may take next: the goal's list for `step` when
      there is a non-empty one, the whole vocabulary `all` otherwise. */
  function RetrieveActionList(goal: Option<Goal>, step: nat, all: seq<string>): (r: seq<string>)
    ensures HasWhitelist(goal, step) ==> r == goal.value.actionList.value[step]
    ensures !HasWhitelist(goal, step) ==> r == all
    ensures all != [] ==> r != []
  {
    if goal.Some? && goal.value.actionList.Some? then
      if |goal.value.actionList.value| > step then
        if |goal.value.actionList.value[step]| > 0 then goal.value.actionList.value[step]
        else all
      else all
    else all
  }

  /** The goal restricts step `step` to a non-empty list of actions. */
  predicate HasWhitelist(goal: Option<Goal>, step: nat) {
    && goal.Some?
    && goal.value.actionList.Some?
    && step < |goal.value.actionList.value|
    && goal.value.actionList.value[step] != []
  }
}
