/** Action names the controller treats specially: the three classes that
    decide how `moveMagnitude` is derived, the no-op substitute for unknown
    actions, and the translation of abstract action names into the names the
    AI2-THOR simulator runs. The full action vocabulary (the values of the
    action enum) is not fixed here; the controller receives it. */
module Actions {

  const PassAction: string := "Pass"
  const CloseObject: string := "CloseObject"
  const OpenObject: string := "OpenObject"
  const DropObject: string := "DropObject"

  /** Actions whose `moveMagnitude` is a force. */
  const ForceActions: seq<string> := ["ThrowObject", "PushObject", "PullObject"]
  /** Actions whose `moveMagnitude` is how far to open or close. */
  const ObjectMoveActions: seq<string> := [CloseObject, OpenObject]
  /** Actions whose `moveMagnitude` is a distance walked. */
  const MoveActions: seq<string> := ["MoveAhead", "MoveLeft", "MoveRight", "MoveBack"]

  /** The renames: the simulator's own open and close handlers are replaced
      by custom ones, and dropping is called differently there. */
  const Overrides: map<string, string> :=
    map[CloseObject := "MCSCloseObject", DropObject := "DropHandObject", OpenObject := "MCSOpenObject"]

  /** The simulator-side names the renames produce. */
  const OverrideTargets: set<string> := {"MCSCloseObject", "DropHandObject", "MCSOpenObject"}

  /** Translate an abstract action name into the simulator's name. */
  function ToAi2thor(action: string): (r: string)
    ensures action in Overrides ==> r == Overrides[action]
    ensures action !in Overrides ==> r == action
    ensures r != action <==> action in Overrides
  {
    if action == CloseObject then "MCSCloseObject"
    else if action == DropObject then "DropHandObject"
    else if action == OpenObject then "MCSOpenObject"
    else action
  }

  /** No override produces a name that is itself overridden, so translating
      twice is translating once. */
  lemma TranslateIdempotent(action: string)
    ensures ToAi2thor(ToAi2thor(action)) == ToAi2thor(action)
  {
  }

  /** An action belongs to at most one class, so at most one rule for
      `moveMagnitude` applies. */
  lemma ActionClassesDisjoint(action: string)
    ensures !(action in ForceActions && action in ObjectMoveActions)
    ensures !(action in ForceActions && action in MoveActions)
    ensures !(action in ObjectMoveActions && action in MoveActions)
  {
  }
}
