/**
  The per-entity state controller of `Player` (Assets/Yoketoru/Scripts/Game/Player/Player.cs).

  Requests (`OnReset`, `OnGameStart`, `OnGameOver`, `OnClear`) only record the wanted
  state in the `SimpleState` cell. `FixedUpdate` commits the request (`InitState`),
  runs a one-shot entry effect when the commit reports a change, and then runs the
  physics-phase per-state step. The only entry effect with an effect beyond logging
  is the one for `Reset`: it writes back the pose captured in `Awake`.

  Engine-owned values are plain fields here: `position` stands for
  `transform.position` and `pivotEulerAngles` for `transform.Find("Pivot").eulerAngles`.
  Vectors are only ever copied, never computed with.
 */
module PlayerController {
  import opened SimpleStateCell

  /** The controller's states; `None` is the initial state and no request targets it. */
  datatype State = None | Play | Miss | Clear | Reset

  /** A `Vector3`, used only as an opaque value that is copied. */
  datatype Vector3 = Vector3(x: real, y: real, z: real)

  /** `default(Vector3)`: the value of the capture fields before `Awake` runs. */
  const Zero := Vector3(0.0, 0.0, 0.0)

  /**
    Value view of a `Player`: its state cell, the pose captured in `Awake`, the live pose,
    the entry effects that have run (in order; the log lines of the entry branches),
    and the number of destruction broadcasts sent.
   */
  datatype PlayerView = PlayerView(
    cell: Cell<State>,
    initialPosition: Vector3,
    initialRotation: Vector3,
    position: Vector3,
    pivotEulerAngles: Vector3,
    entryEffects: seq<State>,
    destroyedBroadcasts: nat)

  /** A freshly constructed `Player` placed at the given pose, before `Awake`. */
  function Constructed(position: Vector3, pivotEulerAngles: Vector3): (v: PlayerView)
    ensures v.cell.current == None && v.cell.next == NoRequest
    ensures v.entryEffects == [] && v.destroyedBroadcasts == 0
  {
    PlayerView(Cell(None, NoRequest), Zero, Zero, position, pivotEulerAngles, [], 0)
  }

  /** `Awake`: capture the live position and Pivot rotation; nothing else changes. */
  function AfterAwake(v: PlayerView): (r: PlayerView)
    ensures r.initialPosition == v.position && r.initialRotation == v.pivotEulerAngles
    ensures r == v.(initialPosition := r.initialPosition, initialRotation := r.initialRotation)
  {
    v.(initialPosition := v.position, initialRotation := v.pivotEulerAngles)
  }

  /** A request method: only the pending request changes, to exactly `target`. */
  function AfterRequest(v: PlayerView, target: State): (r: PlayerView)
    ensures r.cell.next == Requested(target) && r.cell.current == v.cell.current
    ensures r == v.(cell := r.cell)
  {
    v.(cell := SetNext(v.cell, target))
  }

  /** The entry effect dispatched on the state just committed (the `switch` of `InitState`). */
  function Enter(v: PlayerView): (r: PlayerView)
  {
    match v.cell.current
    case None => v
    case Reset =>
      v.(position := v.initialPosition, pivotEulerAngles := v.initialRotation,
         entryEffects := v.entryEffects + [Reset])
    case _ => v.(entryEffects := v.entryEffects + [v.cell.current])
  }

  /**
    `InitState`: commit the pending request; only when the commit reports a change,
    run the entry effect of the new current state.
   */
  function AfterInitState(v: PlayerView): (r: PlayerView)
    ensures r.cell == Commit(v.cell).1
    ensures !Commit(v.cell).0 ==> r == v.(cell := r.cell)
    ensures Commit(v.cell).0 && r.cell.current == Reset ==>
      r.position == v.initialPosition && r.pivotEulerAngles == v.initialRotation
    ensures !(Commit(v.cell).0 && r.cell.current == Reset) ==>
      r.position == v.position && r.pivotEulerAngles == v.pivotEulerAngles
    ensures r.entryEffects ==
      v.entryEffects + (if Commit(v.cell).0 && r.cell.current != None then [r.cell.current] else [])
    ensures r.initialPosition == v.initialPosition && r.initialRotation == v.initialRotation
    ensures r.destroyedBroadcasts == v.destroyedBroadcasts
  {
    var (changed, cell) := Commit(v.cell);
    var w := v.(cell := cell);
    if changed then Enter(w) else w
  }

  /** `OnDestroy`: one more broadcast of `GameStateListenerDestroyed`; no guard against repeats. */
  function AfterDestroy(v: PlayerView): (r: PlayerView)
    ensures r.destroyedBroadcasts == v.destroyedBroadcasts + 1
    ensures r == v.(destroyedBroadcasts := r.destroyedBroadcasts)
  {
    v.(destroyedBroadcasts := v.destroyedBroadcasts + 1)
  }

  /** After a commit into `Reset`, the pose is the captured one, whatever it was before. */
  lemma CommitIntoResetRestoresPose(v: PlayerView)
    requires v.cell.next == Requested(Reset) && v.cell.current != Reset
    ensures AfterInitState(v).cell.current == Reset
    ensures AfterInitState(v).position == v.initialPosition
    ensures AfterInitState(v).pivotEulerAngles == v.initialRotation
  {
  }

  /** A commit into `Play`, `Miss` or `Clear` leaves the pose unchanged. */
  lemma CommitIntoOtherStatesKeepsPose(v: PlayerView, target: State)
    requires target == Play || target == Miss || target == Clear
    requires v.cell.next == Requested(target)
    ensures AfterInitState(v).cell.current == target
    ensures AfterInitState(v).position == v.position
    ensures AfterInitState(v).pivotEulerAngles == v.pivotEulerAngles
  {
  }

  class Player {
    /** Private in `Player`; only the client scenarios read it directly, and only its current state. */
    const state: SimpleState<State>
    var initialPosition: Vector3
    var initialRotation: Vector3
    var position: Vector3
    var pivotEulerAngles: Vector3
    ghost var entryEffects: seq<State>
    var destroyedBroadcasts: nat
    /** The state each per-frame step (`UpdateState`) switched on, in order. */
    ghost var frameStepKeys: seq<State>
    /** The state each physics-phase step (`FixedUpdateState`) switched on, in order. */
    ghost var physicsStepKeys: seq<State>

    ghost function View(): PlayerView
      reads this, state
    {
      PlayerView(state.View(), initialPosition, initialRotation, position, pivotEulerAngles,
                 entryEffects, destroyedBroadcasts)
    }

    /** Object creation with the field initialisers; the engine places it at the given pose. */
    constructor (position: Vector3, pivotEulerAngles: Vector3)
      ensures View() == Constructed(position, pivotEulerAngles)
      ensures fresh(state)
      ensures frameStepKeys == [] && physicsStepKeys == []
    {
      state := new SimpleState(None);
      initialPosition, initialRotation := Zero, Zero;
      this.position, this.pivotEulerAngles := position, pivotEulerAngles;
      entryEffects := [];
      destroyedBroadcasts := 0;
      frameStepKeys, physicsStepKeys := [], [];
    }

    method Awake()
      modifies this`initialPosition, this`initialRotation
      ensures View() == AfterAwake(old(View()))
    {
      initialPosition := position;
      initialRotation := pivotEulerAngles;
    }

    /** The per-frame step runs on the committed state; pending requests stay pending. */
    method Update()
      modifies this`frameStepKeys
      ensures View() == old(View())
      ensures frameStepKeys == old(frameStepKeys) + [View().cell.current]
    {
      UpdateState();
    }

    /**
      The commit step first, then the physics-phase step, which switches on the state
      the commit has just produced.
     */
    method FixedUpdate()
      modifies this, state
      ensures View() == AfterInitState(old(View()))
      ensures physicsStepKeys == old(physicsStepKeys) + [AfterInitState(old(View())).cell.current]
      ensures frameStepKeys == old(frameStepKeys)
    {
      InitState();
      FixedUpdateState();
    }

    method OnDestroy()
      modifies this`destroyedBroadcasts
      ensures View() == AfterDestroy(old(View()))
    {
      destroyedBroadcasts := destroyedBroadcasts + 1;
    }

    method InitState()
      modifies this, state
      ensures View() == AfterInitState(old(View()))
      ensures frameStepKeys == old(frameStepKeys) && physicsStepKeys == old(physicsStepKeys)
    {
      var changed := state.ChangeState();
      if !changed {
        return;
      }
      match state.CurrentState()
      case Play =>
        entryEffects := entryEffects + [Play];
      case Miss =>
        entryEffects := entryEffects + [Miss];
      case Clear =>
        entryEffects := entryEffects + [Clear];
      case Reset =>
        entryEffects := entryEffects + [Reset];
        position := initialPosition;
        pivotEulerAngles := initialRotation;
      case None =>
    }

    /** The per-frame step: a `switch` whose only case, `Play`, does nothing. */
    method UpdateState()
      modifies this`frameStepKeys
      ensures View() == old(View())
      ensures frameStepKeys == old(frameStepKeys) + [state.current]
    {
      frameStepKeys := frameStepKeys + [state.CurrentState()];
      match state.CurrentState()
      case Play =>
      case _ =>
    }

    /** The physics-phase step: a `switch` whose only case, `Play`, does nothing. */
    method FixedUpdateState()
      modifies this`physicsStepKeys
      ensures View() == old(View())
      ensures physicsStepKeys == old(physicsStepKeys) + [state.current]
    {
      physicsStepKeys := physicsStepKeys + [state.CurrentState()];
      match state.CurrentState()
      case Play =>
      case _ =>
    }

    method OnReset()
      modifies state
      ensures View() == AfterRequest(old(View()), Reset)
    {
      state.SetNextState(Reset);
    }

    method OnGameStart()
      modifies state
      ensures View() == AfterRequest(old(View()), Play)
    {
      state.SetNextState(Play);
    }

    method OnGameOver()
      modifies state
      ensures View() == AfterRequest(old(View()), Miss)
    {
      state.SetNextState(Miss);
    }

    method OnClear()
      modifies state
      ensures View() == AfterRequest(old(View()), Clear)
    {
      state.SetNextState(Clear);
    }
  }
}
