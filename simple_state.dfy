/**
  The two-phase state cell `SimpleState<T>` that `Player` keeps in its `state` field.

  Its source is not part of this model; what it does is inferred from how `Player`
  uses it (construction with an initial state, `SetNextState`, `ChangeState()`
  returning a bool, `CurrentState`). The commit rule below is an ASSUMPTION, the
  simplest one consistent with those uses:
    - a request replaces any earlier request that has not been committed yet;
    - `ChangeState` consumes the pending request (if any) and reports `true`, after
      making the request the current state, exactly when the request differs from
      the current state.
 */
module SimpleStateCell {

  /** The request recorded by `SetNextState` and not yet committed. */
  datatype Pending<T> = NoRequest | Requested(target: T)

  /** Value view of a cell: the committed state and the pending request. */
  datatype Cell<T> = Cell(current: T, next: Pending<T>)

  /** `SetNextState(s)`: record `s` as the pending request, replacing any earlier one. */
  function SetNext<T>(c: Cell<T>, s: T): (r: Cell<T>)
    ensures r.next == Requested(s) && r.current == c.current
  {
    c.(next := Requested(s))
  }

  /**
    `ChangeState()`: commit the pending request. The first component reports
    whether the current state changed; the pending request is always consumed.
   */
  function Commit<T(==)>(c: Cell<T>): (r: (bool, Cell<T>))
    ensures r.1.next == NoRequest
    ensures r.0 <==> r.1.current != c.current
    ensures r.1.current == c.current || c.next == Requested(r.1.current)
    ensures c.next.Requested? ==> r.1.current == c.next.target
  {
    match c.next
    case NoRequest => (false, Cell(c.current, NoRequest))
    case Requested(t) => (t != c.current, Cell(t, NoRequest))
  }

  /** Last write wins: an uncommitted request is simply overwritten by a later one. */
  lemma LastWriteWins<T>(c: Cell<T>, a: T, b: T)
    ensures SetNext(SetNext(c, a), b) == SetNext(c, b)
  {
  }

  /** A second commit with no new request in between reports no change and changes nothing. */
  lemma CommitSettles<T>(c: Cell<T>)
    ensures !Commit(Commit(c).1).0 && Commit(Commit(c).1).1 == Commit(c).1
  {
  }

  /** Requesting the state that is already current produces no change on the next commit. */
  lemma SameStateRequestIsNoChange<T>(c: Cell<T>)
    ensures !Commit(SetNext(c, c.current)).0
  {
  }

  /** The mutable cell itself, as `Player` holds it. */
  class SimpleState<T(==)> {
    var current: T
    var next: Pending<T>

    ghost function View(): Cell<T>
      reads this
    {
      Cell(current, next)
    }

    /** `new(initial)`: the cell starts in `initial` with nothing requested. */
    constructor (initial: T)
      ensures View() == Cell(initial, NoRequest)
    {
      current := initial;
      next := NoRequest;
    }

    /** The committed state; pending requests are never visible here. */
    function CurrentState(): (s: T)
      reads this
      ensures s == View().current
    {
      current
    }

    method SetNextState(s: T)
      modifies this
      ensures View() == SetNext(old(View()), s)
    {
      next := Requested(s);
    }

    method ChangeState() returns (changed: bool)
      modifies this
      ensures (changed, View()) == Commit(old(View()))
    {
      match next
      case NoRequest =>
        changed := false;
      case Requested(t) =>
        changed := t != current;
        current := t;
        next := NoRequest;
    }
  }
}
