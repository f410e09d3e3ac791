/**
  A `Player`'s lifetime as a sequence of calls made into it after `Awake`: the
  engine's `FixedUpdate`, `Update` and `OnDestroy` callbacks, gameplay code's
  requests, and moves of the transform by the engine or other scripts. The engine
  decides the order; the lemmas here hold for every order.
 */
module PlayerLifetime {
  import opened SimpleStateCell
  import opened PlayerController

  /** One call into a live `Player`. */
  datatype Event =
    | OnReset | OnGameStart | OnGameOver | OnClear
    | FixedUpdate
    | Update
    | Moved(position: Vector3, pivotEulerAngles: Vector3)  // a write to the transform from outside `Player`
    | OnDestroy

  predicate IsRequest(e: Event)
  {
    e.OnReset? || e.OnGameStart? || e.OnGameOver? || e.OnClear?
  }

  /** The state each request method asks for: never `None`. */
  function Target(e: Event): (s: State)
    requires IsRequest(e)
    ensures s != None
  {
    match e
    case OnReset => Reset
    case OnGameStart => Play
    case OnGameOver => Miss
    case OnClear => Clear
  }

  /** The effect of one call. No call other than `Awake` writes the captured pose. */
  function Step(v: PlayerView, e: Event): (r: PlayerView)
    ensures r.initialPosition == v.initialPosition && r.initialRotation == v.initialRotation
    ensures v.entryEffects <= r.entryEffects
  {
    match e
    case FixedUpdate => AfterInitState(v)  // the physics-phase step changes nothing
    case Update => v
    case Moved(p, q) => v.(position := p, pivotEulerAngles := q)
    case OnDestroy => AfterDestroy(v)
    case _ => AfterRequest(v, Target(e))
  }

  /** A `Player` constructed at the given pose, after `Awake` has captured it. */
  function Spawn(position: Vector3, pivotEulerAngles: Vector3): (v: PlayerView)
    ensures v.initialPosition == position && v.initialRotation == pivotEulerAngles
    ensures v.position == position && v.pivotEulerAngles == pivotEulerAngles
    ensures v.cell == Cell(None, NoRequest) && v.entryEffects == []
  {
    AfterAwake(Constructed(position, pivotEulerAngles))
  }

  /**
    The calls `evs`, in order. The captured pose never changes and the log of entry
    effects only grows.
   */
  function Run(v: PlayerView, evs: seq<Event>): (r: PlayerView)
    ensures r.initialPosition == v.initialPosition && r.initialRotation == v.initialRotation
    ensures v.entryEffects <= r.entryEffects
    decreases |evs|
  {
    if evs == [] then v else Run(Step(v, evs[0]), evs[1..])
  }

  /** The number of `OnDestroy` calls in `evs`. */
  function Destroys(evs: seq<Event>): nat
  {
    if evs == [] then 0 else (if evs[0].OnDestroy? then 1 else 0) + Destroys(evs[1..])
  }

  /** The state whose entry effect ran last, or `None` if none has run. */
  function LastEntered(log: seq<State>): State
  {
    if log == [] then None else log[|log| - 1]
  }

  /**
    What holds of every reachable `Player`: nothing pending targets `None`, no entry
    effect is for `None`, the current state is the one entered last (`None` before any),
    and no state is entered twice in a row.
   */
  predicate Consistent(v: PlayerView)
  {
    && v.cell.next != Requested(None)
    && None !in v.entryEffects
    && v.cell.current == LastEntered(v.entryEffects)
    && forall i :: 0 < i < |v.entryEffects| ==> v.entryEffects[i - 1] != v.entryEffects[i]
  }

  lemma SpawnConsistent(position: Vector3, pivotEulerAngles: Vector3)
    ensures Consistent(Spawn(position, pivotEulerAngles))
  {
  }

  lemma StepConsistent(v: PlayerView, e: Event)
    requires Consistent(v)
    ensures Consistent(Step(v, e))
  {
  }

  lemma {:induction false} RunConsistent(v: PlayerView, evs: seq<Event>)
    requires Consistent(v)
    ensures Consistent(Run(v, evs))
    decreases |evs|
  {
    if evs != [] {
      StepConsistent(v, evs[0]);
      RunConsistent(Step(v, evs[0]), evs[1..]);
    }
  }

  /**
    Over any lifetime the current state is the one whose entry effect ran last, and
    is `None` exactly until the first entry effect runs.
   */
  lemma CurrentIsLastEntered(position: Vector3, pivotEulerAngles: Vector3, evs: seq<Event>)
    ensures var v := Run(Spawn(position, pivotEulerAngles), evs);
      v.cell.current == LastEntered(v.entryEffects) && None !in v.entryEffects
  {
    SpawnConsistent(position, pivotEulerAngles);
    RunConsistent(Spawn(position, pivotEulerAngles), evs);
  }

  /** Once a `Player` has left `None`, no sequence of calls brings it back. */
  lemma NeverReturnsToNone(v: PlayerView, evs: seq<Event>)
    requires Consistent(v) && v.cell.current != None
    ensures Run(v, evs).cell.current != None
  {
    RunConsistent(v, evs);
    var r := Run(v, evs);
    assert |r.entryEffects| > 0 && r.entryEffects[|r.entryEffects| - 1] in r.entryEffects;
  }

  lemma {:induction false} RunAppend(v: PlayerView, a: seq<Event>, b: seq<Event>)
    ensures Run(v, a + b) == Run(Run(v, a), b)
    decreases |a|
  {
    if a == [] {
      assert a + b == b;
    } else {
      assert (a + b)[0] == a[0] && (a + b)[1..] == a[1..] + b;
      RunAppend(Step(v, a[0]), a[1..], b);
    }
  }

  /** Requests, `Update` and moves never change the current state or run an entry effect. */
  lemma {:induction false} RequestsWaitForFixedUpdate(v: PlayerView, evs: seq<Event>)
    requires forall i :: 0 <= i < |evs| ==> !evs[i].FixedUpdate?
    ensures Run(v, evs).cell.current == v.cell.current
    ensures Run(v, evs).entryEffects == v.entryEffects
    decreases |evs|
  {
    if evs != [] {
      RequestsWaitForFixedUpdate(Step(v, evs[0]), evs[1..]);
    }
  }

  /** With nothing pending and no further requests, the state and the entry log stay put. */
  lemma {:induction false} QuietRunKeepsState(v: PlayerView, evs: seq<Event>)
    requires v.cell.next == NoRequest
    requires forall i :: 0 <= i < |evs| ==> !IsRequest(evs[i])
    ensures Run(v, evs).cell == v.cell
    ensures Run(v, evs).entryEffects == v.entryEffects
    decreases |evs|
  {
    if evs != [] {
      QuietRunKeepsState(Step(v, evs[0]), evs[1..]);
    }
  }

  /**
    A request followed by a `FixedUpdate` commits it, with one entry effect if it
    names a new state and none otherwise; any number of later calls other than
    requests add no further entry effect.
   */
  lemma OneEntryPerRequest(v: PlayerView, e: Event, rest: seq<Event>)
    requires IsRequest(e)
    requires forall i :: 0 <= i < |rest| ==> !IsRequest(rest[i])
    ensures Run(v, [e, FixedUpdate] + rest).cell.current == Target(e)
    ensures Run(v, [e, FixedUpdate] + rest).entryEffects ==
      v.entryEffects + (if Target(e) != v.cell.current then [Target(e)] else [])
  {
    RunAppend(v, [e, FixedUpdate], rest);
    var w := Run(v, [e, FixedUpdate]);
    assert [e, FixedUpdate][1..] == [FixedUpdate] && [FixedUpdate][1..] == [];
    assert w == AfterInitState(Step(v, e));
    QuietRunKeepsState(w, rest);
  }

  /** Of two requests made before the same commit, only the later one has any effect. */
  lemma LaterRequestWins(v: PlayerView, e1: Event, e2: Event, rest: seq<Event>)
    requires IsRequest(e1) && IsRequest(e2)
    ensures Run(v, [e1, e2] + rest) == Run(v, [e2] + rest)
  {
  }

  /**
    However the `Player` has been moved since `Awake`, an `OnReset` followed by a
    `FixedUpdate` from any state other than `Reset` puts it back at the pose `Awake`
    captured.
   */
  lemma ResetRestoresAwakePose(position: Vector3, pivotEulerAngles: Vector3, evs: seq<Event>)
    requires Run(Spawn(position, pivotEulerAngles), evs).cell.current != Reset
    ensures Run(Spawn(position, pivotEulerAngles), evs + [OnReset, FixedUpdate]).cell.current == Reset
    ensures Run(Spawn(position, pivotEulerAngles), evs + [OnReset, FixedUpdate]).position == position
    ensures Run(Spawn(position, pivotEulerAngles), evs + [OnReset, FixedUpdate]).pivotEulerAngles
      == pivotEulerAngles
  {
    var s := Spawn(position, pivotEulerAngles);
    RunAppend(s, evs, [OnReset, FixedUpdate]);
    var v := Run(s, evs);
    assert Run(v, [OnReset, FixedUpdate]) == AfterInitState(Step(v, OnReset));
  }

  /**
    Under the commit rule of the cell, an `OnReset` while already in `Reset` is no
    change, so it does not restore the pose: a `Player` moved while in `Reset` stays
    where it was moved.
   */
  lemma ResetInResetKeepsPose(v: PlayerView, p: Vector3, q: Vector3)
    requires v.cell.current == Reset
    ensures Run(v, [Moved(p, q), OnReset, FixedUpdate]).position == p
    ensures Run(v, [Moved(p, q), OnReset, FixedUpdate]).pivotEulerAngles == q
  {
    assert [Moved(p, q), OnReset, FixedUpdate][1..] == [OnReset, FixedUpdate];
    assert [OnReset, FixedUpdate][1..] == [FixedUpdate] && [FixedUpdate][1..] == [];
    assert Run(v, [Moved(p, q), OnReset, FixedUpdate])
      == AfterInitState(Step(Step(v, Moved(p, q)), OnReset));
  }

  /** Every `OnDestroy` sends one more broadcast: nothing stops a second one. */
  lemma {:induction false} BroadcastPerDestroy(v: PlayerView, evs: seq<Event>)
    ensures Run(v, evs).destroyedBroadcasts == v.destroyedBroadcasts + Destroys(evs)
    decreases |evs|
  {
    if evs != [] {
      BroadcastPerDestroy(Step(v, evs[0]), evs[1..]);
    }
  }

  /** A fresh `Player` asked to start enters `Play` at the next `FixedUpdate`. */
  method StartScenario(position: Vector3, pivotEulerAngles: Vector3) returns (current: State)
    ensures current == Play
  {
    var p := new Player(position, pivotEulerAngles);
    p.Awake();
    p.OnGameStart();
    p.FixedUpdate();
    current := p.state.CurrentState();
  }

  /** A request is invisible through `Update` and becomes current at the next `FixedUpdate`. */
  method RequestVisibleAfterFixedUpdate(position: Vector3, pivotEulerAngles: Vector3)
    returns (beforeCommit: State, afterCommit: State)
    ensures beforeCommit == None && afterCommit == Play
  {
    var p := new Player(position, pivotEulerAngles);
    p.Awake();
    p.OnGameStart();
    p.Update();
    beforeCommit := p.state.CurrentState();
    p.FixedUpdate();
    afterCommit := p.state.CurrentState();
  }

  /** `OnGameOver` then `OnClear` before a commit: the player ends in `Clear`, not `Miss`. */
  method FailThenSucceedScenario(position: Vector3, pivotEulerAngles: Vector3)
    returns (current: State)
    ensures current == Clear
  {
    var p := new Player(position, pivotEulerAngles);
    p.Awake();
    p.OnGameOver();
    p.OnClear();
    p.FixedUpdate();
    current := p.state.CurrentState();
  }

  /**
    A playing `Player` moved elsewhere and then reset is back at the pose it had at
    `Awake`, and stays in `Reset` through later `FixedUpdate`s.
   */
  method ResetScenario(position: Vector3, pivotEulerAngles: Vector3,
                       movedPosition: Vector3, movedRotation: Vector3)
    returns (current: State, finalPosition: Vector3, finalRotation: Vector3)
    ensures current == Reset
    ensures finalPosition == position && finalRotation == pivotEulerAngles
  {
    var p := new Player(position, pivotEulerAngles);
    p.Awake();
    p.OnGameStart();
    p.FixedUpdate();
    p.position, p.pivotEulerAngles := movedPosition, movedRotation;
    p.OnReset();
    p.FixedUpdate();
    p.FixedUpdate();
    current := p.state.CurrentState();
    finalPosition, finalRotation := p.position, p.pivotEulerAngles;
  }
}
