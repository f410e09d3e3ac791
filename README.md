# Player state controller

This project models the state controller of the `Player` component in the Yoketoru
Unity game (`Assets/Yoketoru/Scripts/Game/Player/Player.cs`). The player has five states:
`None`, `Play`, `Miss`, `Clear` and `Reset`. It starts in `None`. State changes happen in
two phases:

- **Request.** `OnReset`, `OnGameStart`, `OnGameOver` and `OnClear` only record the wanted
  state in the `SimpleState<State>` cell.
- **Commit.** `FixedUpdate` runs `InitState`, which commits the request
  (`ChangeState()`). Only when the commit reports a change does it dispatch a one-shot entry
  effect on the new current state. It then runs the physics-phase step `FixedUpdateState`.

Entering `Reset` writes back the position and Pivot rotation that `Awake` captured. The
other entry effects only log.

Files:

- `simple_state.dfy` (module `SimpleStateCell`): the two-phase cell. It has a value view
  (`Cell`, `SetNext`, `Commit`) and the mutable class `SimpleState` that `Player` holds.
- `player.dfy` (module `PlayerController`): the class `Player` with its fields and methods.
  Each method is proved against a function on the value view `PlayerView`
  (`AfterAwake`, `AfterRequest`, `AfterInitState`, `AfterDestroy`).
- `player_lifetime.dfy` (module `PlayerLifetime`): a player's lifetime as a sequence of
  calls in any order. It holds the invariants and the properties that span several calls,
  and some client scenarios that drive the class.

**Modelling assumption.** The source of `SimpleState<T>` is not part of this model. Its
behaviour is inferred from how `Player` calls it. The assumed rule is:

- a request replaces any earlier request that has not been committed yet;
- `ChangeState()` consumes the pending request;
- `ChangeState()` returns `true`, after making the request current, exactly when the
  request differs from the current state.

Every result about commits rests on this rule. It is assumed, not checked against code.

Engine values become plain fields:

- `position` stands for `transform.position`.
- `pivotEulerAngles` stands for `transform.Find("Pivot").eulerAngles`.
- `Vector3` is a record of three reals. It is only ever copied, never computed with.

Which entry branch ran is kept in a ghost log, `entryEffects`. The states that the
per-frame and physics-phase steps switched on are kept in two more ghost logs,
`frameStepKeys` and `physicsStepKeys`. In the source, a branch is
observable only through its `Debug.Log` line and, for `Reset`, the pose write.

**Teardown.** `OnDestroy` (Assets/Yoketoru/Scripts/Game/Player/Player.cs:54-58) invokes
`GameStateListenerDestroyed` with no guard, and nothing checks calls made after teardown.
It fires once per object only because Unity calls the private `OnDestroy` once. The
lifetime model does not assume that (see `BroadcastPerDestroy`).

## Model

| member | source | states |
|---|---|---|
| `SimpleStateCell.SetNext` | Assets/Yoketoru/Scripts/Game/Player/Player.cs:119-137 | a request makes the pending state exactly the requested one and leaves the current state alone (assumed cell rule) |
| `SimpleStateCell.Commit` | Assets/Yoketoru/Scripts/Game/Player/Player.cs:63-68 | a commit always consumes the request; its report is true iff the current state changed; the new state is the old one or the requested one, and always the requested one when a request was pending (assumed cell rule) |
| `SimpleStateCell.LastWriteWins` | Assets/Yoketoru/Scripts/Game/Player/Player.cs:119-137 | a later request before the same commit fully replaces an earlier one |
| `SimpleStateCell.CommitSettles` | Assets/Yoketoru/Scripts/Game/Player/Player.cs:48-52 | a second commit with no new request reports no change and changes nothing, so calling it every physics step is safe |
| `SimpleStateCell.SameStateRequestIsNoChange` | Assets/Yoketoru/Scripts/Game/Player/Player.cs:63-68 | requesting the state that is already current gives no change (and so no entry effect) on the next commit |
| `SimpleStateCell.SimpleState.constructor` | Assets/Yoketoru/Scripts/Game/Player/Player.cs:15 | the cell starts in the given state with nothing pending |
| `SimpleStateCell.SimpleState.CurrentState` | Assets/Yoketoru/Scripts/Game/Player/Player.cs:70 | reads the committed state, never the pending request |
| `SimpleStateCell.SimpleState.SetNextState` | Assets/Yoketoru/Scripts/Game/Player/Player.cs:121 | the new cell is `SetNext` of the old one |
| `SimpleStateCell.SimpleState.ChangeState` | Assets/Yoketoru/Scripts/Game/Player/Player.cs:65 | the report and the new cell are those of `Commit` on the old cell |
| `PlayerController.Constructed` | Assets/Yoketoru/Scripts/Game/Player/Player.cs:8-15 | a new player is in `None` with nothing pending, no entry effect run and no broadcast sent |
| `PlayerController.AfterAwake` | Assets/Yoketoru/Scripts/Game/Player/Player.cs:28-35 | `Awake` captures the live position and Pivot rotation and changes nothing else |
| `PlayerController.AfterRequest` | Assets/Yoketoru/Scripts/Game/Player/Player.cs:119-137 | a request sets the pending state to its target and changes neither the current state, nor the pose, nor the entry log |
| `PlayerController.AfterInitState` | Assets/Yoketoru/Scripts/Game/Player/Player.cs:63-93 | with no change reported, everything except the consumed request is unchanged; after a change into `Reset` the pose is the captured one, otherwise the pose is unchanged; exactly one entry effect, for the new state, runs iff the commit reported a change into a state other than `None`; the capture and the broadcast count never change |
| `PlayerController.AfterDestroy` | Assets/Yoketoru/Scripts/Game/Player/Player.cs:54-58 | teardown adds one broadcast and changes nothing else |
| `PlayerController.CommitIntoResetRestoresPose` | Assets/Yoketoru/Scripts/Game/Player/Player.cs:84-90 | committing a pending `Reset` from any other state puts the position and Pivot rotation back to the captured values, whatever the pose was |
| `PlayerController.CommitIntoOtherStatesKeepsPose` | Assets/Yoketoru/Scripts/Game/Player/Player.cs:72-82 | committing `Play`, `Miss` or `Clear` makes it current and leaves the pose unchanged |
| `PlayerController.Player.constructor` | Assets/Yoketoru/Scripts/Game/Player/Player.cs:15-23 | field initialisation gives the `Constructed` view with a fresh cell, and no per-state step has run |
| `PlayerController.Player.Awake` | Assets/Yoketoru/Scripts/Game/Player/Player.cs:28-35 | the new view is `AfterAwake` of the old one |
| `PlayerController.Player.Update` | Assets/Yoketoru/Scripts/Game/Player/Player.cs:40-43 | the per-frame callback changes neither the state nor the pose, and its per-state step switches on the committed state, never the pending one |
| `PlayerController.Player.FixedUpdate` | Assets/Yoketoru/Scripts/Game/Player/Player.cs:48-52 | the new view is `AfterInitState` of the old one, and the physics-phase step switches on the state that commit produced, so commit and entry run before the physics step; no per-frame step runs |
| `PlayerController.Player.OnDestroy` | Assets/Yoketoru/Scripts/Game/Player/Player.cs:54-58 | the new view is `AfterDestroy` of the old one |
| `PlayerController.Player.InitState` | Assets/Yoketoru/Scripts/Game/Player/Player.cs:63-93 | the new view is `AfterInitState` of the old one |
| `PlayerController.Player.UpdateState` | Assets/Yoketoru/Scripts/Game/Player/Player.cs:98-105 | changes neither the state nor the pose, in every state; records the committed state as the one it switched on |
| `PlayerController.Player.FixedUpdateState` | Assets/Yoketoru/Scripts/Game/Player/Player.cs:110-117 | changes neither the state nor the pose, in every state; records the committed state as the one it switched on |
| `PlayerController.Player.OnReset` | Assets/Yoketoru/Scripts/Game/Player/Player.cs:119-122 | the new view is `AfterRequest(old, Reset)` |
| `PlayerController.Player.OnGameStart` | Assets/Yoketoru/Scripts/Game/Player/Player.cs:124-127 | the new view is `AfterRequest(old, Play)` |
| `PlayerController.Player.OnGameOver` | Assets/Yoketoru/Scripts/Game/Player/Player.cs:129-132 | the new view is `AfterRequest(old, Miss)` |
| `PlayerController.Player.OnClear` | Assets/Yoketoru/Scripts/Game/Player/Player.cs:134-137 | the new view is `AfterRequest(old, Clear)` |
| `PlayerLifetime.Target` | Assets/Yoketoru/Scripts/Game/Player/Player.cs:119-137 | no request method targets `None` |
| `PlayerLifetime.Step` | Assets/Yoketoru/Scripts/Game/Player/Player.cs:18-21 | no call after `Awake` writes the captured pose, and no call removes an entry from the entry log |
| `PlayerLifetime.Spawn` | Assets/Yoketoru/Scripts/Game/Player/Player.cs:28-35 | after construction and `Awake`, the capture equals the placement pose, the state is `None` and nothing is pending |
| `PlayerLifetime.Run` | Assets/Yoketoru/Scripts/Game/Player/Player.cs:18-21 | over any sequence of calls the captured pose is unchanged and the entry log only grows |
| `PlayerLifetime.SpawnConsistent` | Assets/Yoketoru/Scripts/Game/Player/Player.cs:8-15 | a fresh player satisfies the reachable-state invariant |
| `PlayerLifetime.StepConsistent` | Assets/Yoketoru/Scripts/Game/Player/Player.cs:63-137 | every call preserves the invariant: no pending `None`, no entry for `None`, the current state is the last one entered, no state entered twice in a row |
| `PlayerLifetime.RunConsistent` | Assets/Yoketoru/Scripts/Game/Player/Player.cs:63-137 | any sequence of calls preserves that invariant |
| `PlayerLifetime.CurrentIsLastEntered` | Assets/Yoketoru/Scripts/Game/Player/Player.cs:63-93 | in any lifetime the current state is the state whose entry effect ran last, and it is `None` exactly until the first entry effect |
| `PlayerLifetime.NeverReturnsToNone` | Assets/Yoketoru/Scripts/Game/Player/Player.cs:8-15 | once a player has left `None`, no sequence of calls brings it back |
| `PlayerLifetime.RunAppend` | Assets/Yoketoru/Scripts/Game/Player/Player.cs:40-58 | running two call sequences one after the other is running their concatenation |
| `PlayerLifetime.RequestsWaitForFixedUpdate` | Assets/Yoketoru/Scripts/Game/Player/Player.cs:40-52 | without a `FixedUpdate`, no number of requests, `Update`s or moves changes the current state or runs an entry effect |
| `PlayerLifetime.QuietRunKeepsState` | Assets/Yoketoru/Scripts/Game/Player/Player.cs:63-68 | with nothing pending and no further requests, the cell and the entry log stay as they are |
| `PlayerLifetime.OneEntryPerRequest` | Assets/Yoketoru/Scripts/Game/Player/Player.cs:48-93 | a request then `FixedUpdate` makes its target current with exactly one entry effect if the target is new and none otherwise; later calls other than requests add none |
| `PlayerLifetime.LaterRequestWins` | Assets/Yoketoru/Scripts/Game/Player/Player.cs:119-137 | of two requests before the same commit, the earlier one has no effect at all |
| `PlayerLifetime.ResetRestoresAwakePose` | Assets/Yoketoru/Scripts/Game/Player/Player.cs:84-90 | after any lifetime that does not end in `Reset`, `OnReset` then `FixedUpdate` put the player back at exactly the pose `Awake` captured |
| `PlayerLifetime.ResetInResetKeepsPose` | Assets/Yoketoru/Scripts/Game/Player/Player.cs:65-68 | `OnReset` while already in `Reset` is no change under the cell rule, so a player moved while in `Reset` is not moved back |
| `PlayerLifetime.BroadcastPerDestroy` | Assets/Yoketoru/Scripts/Game/Player/Player.cs:54-58 | the number of destruction broadcasts equals the number of `OnDestroy` calls: there is no single-fire guard |
| `PlayerLifetime.StartScenario` | Assets/Yoketoru/Scripts/Game/Player/Player.cs:124-127 | a fresh player asked to start is in `Play` after the next `FixedUpdate` |
| `PlayerLifetime.RequestVisibleAfterFixedUpdate` | Assets/Yoketoru/Scripts/Game/Player/Player.cs:40-52 | a request is not visible through `Update`; it becomes current at the next `FixedUpdate` |
| `PlayerLifetime.FailThenSucceedScenario` | Assets/Yoketoru/Scripts/Game/Player/Player.cs:129-137 | `OnGameOver` then `OnClear` before a commit leaves the player in `Clear` |
| `PlayerLifetime.ResetScenario` | Assets/Yoketoru/Scripts/Game/Player/Player.cs:84-90 | a playing player that was moved and then reset is back at its `Awake` pose, and stays in `Reset` through later `FixedUpdate`s |

## Left out

- The source of `SimpleState<T>` is not part of this model. Its commit rule is the assumption stated above.
- Unity's callback scheduling (when `Update`, `FixedUpdate` and `OnDestroy` run) is engine code. The lifetime model allows any order of calls after `Awake`.
- `transform.Find("Pivot")` is a scene-graph lookup. The Pivot rotation is a plain field, and a missing Pivot (which would throw) is not modelled.
- `Debug.Log` output is I/O. Only which entry branch ran is recorded, in a ghost log.
- The `GameStateListenerDestroyed` listeners live in a foreign library (`UnityEvent`). Teardown is modelled as a count of broadcasts.
- `Vector3` and Euler-angle float semantics are left out. Poses are only copied, never computed with.
- Moves of the transform by physics or other scripts are engine behaviour. They appear only as the `Moved` call in the lifetime model.
