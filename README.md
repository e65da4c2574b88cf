# MCS controller for AI2-THOR, modelled in Dafny

This project models the adapter between client agents and the AI2-THOR
simulator: the controller class `MCS_Controller_AI2THOR`. A client starts a
scene from a configuration and then issues actions one at a time. For each
action the controller does the following:

- it refuses the action once the scene is past its last step;
- it replaces an unknown action with `Pass`;
- it counts the step;
- it turns the loosely typed keyword arguments into a complete parameter
  record, with defaults and range checks;
- it renames three actions for the simulator;
- it rebuilds a typed step output from the simulator's metadata: objects
  sorted by uuid, materials, visibility, return status, pose and the
  per-step action whitelist.

Modules, one per component:

- `Wrappers`: `Option` and `Result`. `Err` stands for an exception the
  controller lets escape.
- `Text`: Python's ordering of strings (`LexLe`, proved reflexive, total
  and transitive) and `str.upper()` on ASCII.
- `Actions`: the action classes that decide `moveMagnitude`, and the
  translation to simulator action names.
- `Params`: the validation and normalisation unit.
- `Goals`: goal resolution from a scene configuration, and the per-step
  action whitelist.
- `Objects`: rebuilding the state. This covers the material filter, the
  conversion of each object, a stable sort by uuid (proved sorted, a
  permutation, and order-preserving among equal uuids), and the return
  status.
- `Controller`: the step orchestrator. It is a class whose fields are the
  controller's state: step counter, goal, head tilt, current scene and
  noise flag.

Collaborators whose code is not part of this model appear as parameters:

- the simulator: a function from the requests sent so far to the event that
  answers the last one;
- the parser of the single-string command form;
- the three enums, as a `Vocabulary`: the action list, the material names
  and the return-status names;
- the noise samples.

Python floats are Dafny `real`s. The arithmetic is:
- multiplication by constants;
- division by 0.5;
- with noise on, multiplying rotation, horizon and moveMagnitude by
  (1 + sample), where each sample is a parameter.

The model follows the code in these places:

- The last-step guard refuses only when `last_step < step_number`. A goal
  with `last_step` 2 therefore accepts three steps, reported as steps 1, 2
  and 3, and refuses the fourth (`Controller.LastStepScenario`). Reading the
  guard as "refuse once the counter has reached the last step" would be
  wrong.
- Three fields of the goal (info, task and type lists) are read only when
  the configuration has `type_list`. When `type_list` is present but
  `info_list` or `task_list` is missing, reading it raises a `KeyError`, and
  the model returns that error.

One place departs from the code on purpose. The documented default amount of
1 for open and close is never applied when `amount` is missing. The model
keeps the code as written (`Params.ConvertParamsAsWritten`), and the
controller uses the corrected conversion (`Params.ConvertParams`). See
"## Findings".

## Model

| member | source | states |
|---|---|---|
| `Params.AsWrittenFieldRules` | python_api/machine_common_sense/mcs_controller_ai2thor.py:139-235 | With noise off, the written conversion passes objectId and receptacleObjectId through or gives None. Rotation is the supplied number or 0, whatever its size (it is never range-checked). Horizon is the supplied number when it lies in [-180, 180], otherwise 0. The direction vectors carry the supplied numbers or 0. moveMagnitude is force×25 for throw, push and pull, with force the supplied number in [0, 1] or else 0.5. It is amount×0.5 for the four moves, with amount the supplied number in [0, 1] or else 0.5, and 0.5 for every other action. For open and close it is 1 only when amount is present and not a number, the supplied amount when it is in range, and 0.5 otherwise (including when amount is absent). |
| `Params.FieldRules` | python_api/machine_common_sense/mcs_controller_ai2thor.py:139-235 | The corrected conversion gives the same fields, except that open and close move by 1 whenever no numeric amount was supplied. |
| `Params.ConvertParamsAsWritten` | python_api/machine_common_sense/mcs_controller_ai2thor.py:139-235 | The conversion as the code performs it. With noise off, the range checks keep the horizon within [-180, 180] and moveMagnitude within [0, 25] for every action and every keyword map. |
| `Params.ConvertParams` | python_api/machine_common_sense/mcs_controller_ai2thor.py:139-235 | The corrected conversion keeps the same ranges. It equals the written conversion on every call, noise included, except open or close without an amount key. |
| `Params.NoiseScales` | python_api/machine_common_sense/mcs_controller_ai2thor.py:208-212 | With noise on, rotation, horizon and moveMagnitude are the noise-free values times (1 + sample), and every other field is unchanged. |
| `Params.OpenCloseMissingAmount` | python_api/machine_common_sense/mcs_controller_ai2thor.py:143-165 | For open or close without an amount key, the written conversion gives moveMagnitude 0.5 and the corrected one gives 1. |
| `Params.OpenObjectWithoutAmount` | python_api/machine_common_sense/mcs_controller_ai2thor.py:143-165 | Concrete instance: `OpenObject` with only an objectId yields 0.5 as written and 1 after the correction. |
| `Actions.ToAi2thor` | python_api/machine_common_sense/mcs_controller_ai2thor.py:267-284 | The name changes exactly for the three overridden actions: CloseObject becomes MCSCloseObject, DropObject becomes DropHandObject, and OpenObject becomes MCSOpenObject. Every other name is returned unchanged. |
| `Actions.TranslateIdempotent` | python_api/machine_common_sense/mcs_controller_ai2thor.py:267-284 | Translating a translated name changes nothing. |
| `Actions.ActionClassesDisjoint` | python_api/machine_common_sense/mcs_controller_ai2thor.py:70-74 | No action is in two of the force, open/close and move classes, so at most one moveMagnitude rule applies. |
| `Goals.RetrieveGoal` | python_api/machine_common_sense/mcs_controller_ai2thor.py:294-304 | An absent goal section counts as empty. The goal fails to build exactly when type_list is present and info_list or task_list is absent; the error names the first missing key in read order. Otherwise action_list and last_step are copied or None, metadata is copied or {}, and the three lists are taken from the configuration only when type_list is present, otherwise []. |
| `Goals.NoGoalGivesDefault` | python_api/machine_common_sense/mcs_controller_ai2thor.py:295-304 | A scene without a goal section gets the goal with no whitelist, no last step, empty lists and empty metadata. |
| `Goals.ListsIgnoredWithoutTypeList` | python_api/machine_common_sense/mcs_controller_ai2thor.py:299-302 | Without type_list the goal always builds, and info_list and task_list are empty even when the configuration gives them. |
| `Goals.RetrieveActionList` | python_api/machine_common_sense/mcs_controller_ai2thor.py:286-292 | The result is the goal's list for this step exactly when the goal and its action list exist, the index is in bounds and that entry is non-empty; in every other case it is the full vocabulary. It is never empty when the vocabulary is not. |
| `Text.Upper` | python_api/machine_common_sense/mcs_controller_ai2thor.py:314 | Upper-casing keeps the length and maps each character to its upper-case form. |
| `Objects.KnownMaterials` | python_api/machine_common_sense/mcs_controller_ai2thor.py:314-315 | Every material kept is known to the enum and is the upper-cased form of some given name. Every given name whose upper-cased form is known is kept. Nothing is added, and the result is never longer than the input. |
| `Objects.KnownMaterialsAppend` | python_api/machine_common_sense/mcs_controller_ai2thor.py:314-315 | Appending a name appends its upper-cased form when that form is known, and nothing otherwise. Together with the empty case this fixes the result: the filter keeps the names in order and keeps every repetition, as `filter` over the comprehension does. |
| `Objects.MaterialList` | python_api/machine_common_sense/mcs_controller_ai2thor.py:314-315 | The material list is None exactly when the simulator gave none or no upper-cased name is known. Otherwise it is the non-empty filtered list. |
| `Objects.RetrieveObjectOutput` | python_api/machine_common_sense/mcs_controller_ai2thor.py:313-333 | Conversion raises exactly when the object id has no colour. Otherwise uuid is the id and the colour is the looked-up one. visible is visibleInCamera or isPickedUp, and held is isPickedUp. distance × 0.5 equals distanceXZ. Direction, mass and points pass through, and the materials are as described for MaterialList. |
| `Objects.ConvertAll` | python_api/machine_common_sense/mcs_controller_ai2thor.py:310-311 | Converting the metadata list succeeds exactly when every object has a colour, and then converts each entry in place. On failure the error is the id of the first entry without a colour, the one the comprehension raises on. |
| `Objects.SortByUuid` | python_api/machine_common_sense/mcs_controller_ai2thor.py:310-311 | The result is sorted ascending by uuid under Python's string order, and it is a permutation of the input. |
| `Objects.SortStable` | python_api/machine_common_sense/mcs_controller_ai2thor.py:310-311 | Objects that share a uuid keep their input order, as with Python's stable `sorted`. |
| `Objects.InsertKeepsSorted` | python_api/machine_common_sense/mcs_controller_ai2thor.py:310-311 | Inserting one object into a list sorted by uuid keeps it sorted. |
| `Objects.InsertStable` | python_api/machine_common_sense/mcs_controller_ai2thor.py:310-311 | An inserted object goes before the objects with the same uuid, so insertion is stable. |
| `Objects.RetrieveObjectList` | python_api/machine_common_sense/mcs_controller_ai2thor.py:309-311 | The object list is built exactly when every object has a colour. It is then sorted by uuid, as long as the metadata list, and a permutation of the converted entries. Otherwise it raises the error of the conversion, which names the first entry without a colour. |
| `Objects.ObjectListMembers` | python_api/machine_common_sense/mcs_controller_ai2thor.py:309-333 | Every reported object is the conversion of some metadata entry. |
| `Objects.ObjectListStable` | python_api/machine_common_sense/mcs_controller_ai2thor.py:309-311 | For every uuid, the reported objects with that uuid appear in metadata order. |
| `Objects.RetrieveReturnStatus` | python_api/machine_common_sense/mcs_controller_ai2thor.py:339-349 | The result is the simulator's status string when it is non-empty and names a return status, and UNDEFINED otherwise (missing, empty or unknown). It is a total function, so it never raises. |
| `Objects.RetrievePose` | python_api/machine_common_sense/mcs_controller_ai2thor.py:335-337 | The pose is STAND for every event: the simulator does not report one. |
| `Objects.RetrieveHeadTilt` | python_api/machine_common_sense/mcs_controller_ai2thor.py:306-307 | The head tilt is the camera pitch (`cameraHorizon`) of the event. |
| `Controller.BuildOutput` | python_api/machine_common_sense/mcs_controller_ai2thor.py:368-402 | An output is built exactly when every object has a colour; otherwise it raises with the error of the object list, which names the first entry without a colour. It reports the counter and the goal, the whitelist for that counter, the camera horizon as head tilt, and the pose STAND. Its object list is the event's object list (sorted by uuid, one per metadata entry) and its return status is the event's (a known name or UNDEFINED). |
| `Controller.ResolveAction` | python_api/machine_common_sense/mcs_controller_ai2thor.py:246-251 | The resolved action is in the vocabulary or is Pass. Without a comma, the keywords are kept, and the action is kept if known and Pass otherwise. With a comma, the parser gives both the action and the keywords, and the parsed action is kept if known and Pass otherwise. |
| `Controller.UnknownActionSentAsPass` | python_api/machine_common_sense/mcs_controller_ai2thor.py:249-251 | An unknown action without a comma becomes Pass with its keywords, and the simulator receives Pass. |
| `Controller.StepRequest` | python_api/machine_common_sense/mcs_controller_ai2thor.py:246-265 | The request a step sends carries the translated name of the resolved action, with parameters converted from the untranslated name. Its action is an override target, a vocabulary action or Pass. With noise off its horizon is within [-180, 180]. |
| `Controller.Ai2thorController.constructor` | python_api/machine_common_sense/mcs_controller_ai2thor.py:76-108 | A new controller has no scene and no goal, counter 0, head tilt 0, the given noise flag, and has sent nothing. |
| `Controller.Ai2thorController.OnInit` | python_api/machine_common_sense/mcs_controller_ai2thor.py:98-108 | Resets scene, goal, counter and head tilt, and sets the noise flag. |
| `Controller.Ai2thorController.WrapOutput` | python_api/machine_common_sense/mcs_controller_ai2thor.py:368-402 | Replies with the built output and stores its head tilt. When the output cannot be built it raises and the head tilt is unchanged. |
| `Controller.Ai2thorController.StartScene` | python_api/machine_common_sense/mcs_controller_ai2thor.py:117-131 | Stores the scene and resets the counter to 0, whatever happens next. If the goal cannot be built it raises, and the goal, the simulator and the head tilt are untouched. Otherwise it sets the goal, sends Initialize, and replies with output for step 0. It never refuses. |
| `Controller.Ai2thorController.Step` | python_api/machine_common_sense/mcs_controller_ai2thor.py:238-265 | With no scene started, it raises and changes nothing. When a last step is set and the counter is strictly past it, it refuses, changes nothing and sends nothing. Otherwise the goal is kept and the counter rises by exactly 1, even when the action became Pass. It sends one request: the translated resolved name, with parameters converted by the corrected conversion from the untranslated name. It replies with the output for the new counter. Valid() is preserved: the counter never exceeds max(last_step + 1, 0). |
| `Controller.LastStepScenario` | python_api/machine_common_sense/mcs_controller_ai2thor.py:241-253 | With last_step 2, the first three steps are accepted, the fourth is refused, and the counter ends at 3. |

## Left out

- Controller.Ai2thorController.Step: it uses the corrected conversion, so it
  sends moveMagnitude 1 for an open or close without `amount`. The code sends
  0.5 there (see "## Findings"). On every other call the request equals the
  one the code sends: `Params.ConvertParams` states that agreement.
- Controller.StepRequest: it builds its request with the corrected
  conversion, with the same single difference as for `Step`.
- Actions.ToAi2thor: the action enum is not part of this model. The three
  overridden names are taken to be the values of its close, drop and open
  members. "CloseObject" and "OpenObject" also appear as literals in the
  open/close action class. "DropObject" is inferred from the naming pattern.
- Params.ConvertParams: the range check is taken to include both bounds.
  The range helper is not part of this model, so an amount or force of
  exactly 0 or 1, or a horizon of exactly ±180, is assumed to be kept.
- Params.KwValue: the number test is not part of this model. The datatype
  stands for its verdict: `Num` values pass, `Str` and `Other` fail. A
  numeric string is therefore not treated as a number.
- Text.Upper: only ASCII letters are upper-cased. Python's `upper()` also
  maps non-ASCII letters and can change a string's length (`ß` becomes
  `SS`).
- Objects.RetrieveReturnStatus: enum aliases are not modelled. A lookup by
  an alias name would give the canonical name, but the model returns the
  string itself.
- The simulator itself (its construction with window, quality and scene
  settings, and every `step` call): modelled as a function of the requests
  sent so far. The constant fields every request carries (continuous,
  grid size, logs, reach, rendering flags) are not represented.
- Images, depth masks and object masks in the step output, and the head-tilt
  read beyond `cameraHorizon`: the frames are opaque arrays.
- Noise generation: the random samples are a parameter of `Step`.
- Debug output: the output folder (creating and clearing it), saved images,
  JSON dumps and terminal printing, including all warnings. These are I/O
  only.
- `end_scene`: it does nothing beyond calling the base class, which is not
  part of this model.
- The base controller class, called at the start of `start_scene` and
  `step`: not part of this model, and assumed to change no state used here.
- The parser of the single-string command form: not part of this model. It
  is a parameter of the controller.
- The action, material and return-status enums: not part of this model.
  They are the `Vocabulary` parameter. The only exception is the three
  action names fixed in `Actions` (see the Actions.ToAi2thor line above).
- Malformed data beyond the two modelled error paths (a missing goal key
  under `type_list`, and a missing colour) is not represented:
  - a `goal` that is not a mapping;
  - an explicit JSON null for a list field;
  - missing metadata keys;
  - non-string material names.
  An explicit null for `action_list` or `last_step` behaves like an absent
  key and is modelled as one.
- The human-input command-line tool and the scorer tests: outside the
  controller.

## Findings

| source | as written | input that shows it | evidently intended | confidence | as-written member | corrected member |
|---|---|---|---|---|---|---|
| python_api/machine_common_sense/mcs_controller_ai2thor.py:143-165 | An absent `amount` is looked up with 0.5 standing in. That value passes the number test, so the open/close default of 1 (in the branch commented at line 161) is reached only when `amount` is present and not a number. | `step("OpenObject", objectId="door")`: moveMagnitude is 0.5 | An open or close without an amount uses the open/close default of 1. | high, not executed | `Params.ConvertParamsAsWritten`, shown by `Params.OpenObjectWithoutAmount` | `Params.ConvertParams`, with `Params.FieldRules` (used by `Controller.Ai2thorController.Step`) |
