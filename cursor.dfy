/** The iteration history shared by every builder: the list `states` of
    generation states and the cursor `iteration` into it. Moving forward
    computes a state only at the last entry (replay is memoised); moving back
    is a pure cursor move that never deletes an entry. */
module Cursor {

  datatype History<S> = History(states: seq<S>, iteration: nat)

  /** The cursor points at an existing entry. */
  predicate Valid<S>(h: History<S>)
  {
    h.iteration < |h.states|
  }

  function Current<S>(h: History<S>): S
    requires Valid(h)
  {
    h.states[h.iteration]
  }

  predicate AtLast<S>(h: History<S>)
  {
    h.iteration + 1 == |h.states|
  }

  /** A history holding only the initial state, cursor on it. */
  function Start<S>(initial: S): (h: History<S>)
    ensures Valid(h) && |h.states| == 1 && Current(h) == initial
  {
    History([initial], 0)
  }

  /** nextIteration: `computed` is appended only when the cursor is on the last
      entry; the cursor always moves forward by one. */
  function Next<S>(h: History<S>, computed: S): (h': History<S>)
    ensures h'.iteration == h.iteration + 1
    ensures h.states <= h'.states
    ensures |h'.states| == if AtLast(h) then |h.states| + 1 else |h.states|
    ensures Valid(h) ==> Valid(h')
    ensures AtLast(h) ==> AtLast(h') && Current(h') == computed
  {
    if AtLast(h) then History(h.states + [computed], h.iteration + 1)
    else History(h.states, h.iteration + 1)
  }

  /** prevIteration: the cursor moves back unless it is at 0; states are kept. */
  function Prev<S>(h: History<S>): (h': History<S>)
    ensures h'.states == h.states
    ensures Valid(h) ==> Valid(h')
    ensures h.iteration > 0 ==> h'.iteration + 1 == h.iteration
    ensures h.iteration == 0 ==> h' == h
  {
    if h.iteration > 0 then History(h.states, h.iteration - 1) else h
  }

  /** Undo then redo returns to the same history without using a new state:
      the redo is a replay, not a recomputation. */
  lemma RedoAfterUndo<S>(h: History<S>, computed: S)
    requires Valid(h) && h.iteration > 0
    ensures Next(Prev(h), computed) == h
  {
  }

  /** A call from the host: advance (with the state it would compute) or retreat. */
  datatype Op<S> = Advance(computed: S) | Retreat

  function Drive<S>(h: History<S>, ops: seq<Op<S>>): History<S>
    decreases |ops|
  {
    if ops == [] then h
    else
      var h' := match ops[0]
        case Advance(s) => Next(h, s)
        case Retreat => Prev(h);
      Drive(h', ops[1..])
  }

  /** How many of the calls actually compute a new state. */
  function Computations<S>(h: History<S>, ops: seq<Op<S>>): nat
    decreases |ops|
  {
    if ops == [] then 0
    else match ops[0]
      case Advance(s) => (if AtLast(h) then 1 else 0) + Computations(Next(h, s), ops[1..])
      case Retreat => Computations(Prev(h), ops[1..])
  }

  function Advances<S>(ops: seq<Op<S>>): nat
  {
    if ops == [] then 0 else (if ops[0].Advance? then 1 else 0) + Advances(ops[1..])
  }

  /** Over any sequence of calls the history stays valid and only grows at the
      end, by exactly one entry per computing call, and at most one per advance. */
  lemma {:induction false} DriveAppendOnly<S>(h: History<S>, ops: seq<Op<S>>)
    requires Valid(h)
    ensures Valid(Drive(h, ops))
    ensures h.states <= Drive(h, ops).states
    ensures |Drive(h, ops).states| == |h.states| + Computations(h, ops)
    ensures Computations(h, ops) <= Advances(ops)
    decreases |ops|
  {
    if ops != [] {
      match ops[0]
      case Advance(s) => DriveAppendOnly(Next(h, s), ops[1..]);
      case Retreat => DriveAppendOnly(Prev(h), ops[1..]);
    }
  }

  /** From the last entry, n advances with no retreat compute n states. */
  lemma {:induction false} AdvancesFromLast<S>(h: History<S>, ops: seq<Op<S>>)
    requires AtLast(h)
    requires forall i :: 0 <= i < |ops| ==> ops[i].Advance?
    ensures AtLast(Drive(h, ops))
    ensures |Drive(h, ops).states| == |h.states| + |ops|
    ensures Drive(h, ops).iteration == h.iteration + |ops|
    decreases |ops|
  {
    if ops != [] {
      AdvancesFromLast(Next(h, ops[0].computed), ops[1..]);
    }
  }

  /** After n advances from the initial history there are n + 1 states. */
  lemma AdvancesFromStart<S>(initial: S, ops: seq<Op<S>>)
    requires forall i :: 0 <= i < |ops| ==> ops[i].Advance?
    ensures |Drive(Start(initial), ops).states| == |ops| + 1
    ensures Drive(Start(initial), ops).iteration == |ops|
  {
    AdvancesFromLast(Start(initial), ops);
  }
}
