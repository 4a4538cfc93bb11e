/** The list of per-process states: `state_find`, and the list part of `kvm_dev_open` and
    `kvm_dev_close`. */
module StateList {

  class State {
    var next: State?
    var prev: State?
    const process: nat
    var openCount: int

    constructor (process: nat)
      ensures this.process == process && next == null && prev == null && openCount == 0
    {
      this.process := process;
      next, prev, openCount := null, null, 0;
    }
  }

  function After(states: seq<State>, i: nat): State?
    requires i < |states|
  {
    if i + 1 < |states| then states[i + 1] else null
  }

  function Before(states: seq<State>, i: nat): State?
    requires i < |states|
  {
    if i > 0 then states[i - 1] else null
  }

  lemma Without(states: seq<State>, i: nat)
    requires i < |states| && forall j, k | 0 <= j < k < |states| :: states[j] != states[k]
    ensures forall s :: s in Rest(states, i) <==> s in states && s != states[i]
  {
  }

  /** The list without state `i`. */
  function Rest(states: seq<State>, i: nat): (r: seq<State>)
    requires i < |states|
    ensures |r| == |states| - 1
  {
    states[..i] + states[i + 1..]
  }

  /** Neighbours in the list without state `i`, where state `j` has become state `k`. */
  lemma NeighboursWithout(states: seq<State>, i: nat, j: nat)
    requires i < |states| && j < |states| && j != i
    ensures var rest, k := Rest(states, i), if j < i then j else j - 1;
            && rest[k] == states[j]
            && After(rest, k) == (if j + 1 == i then After(states, i) else After(states, j))
            && Before(rest, k) == (if j == i + 1 then Before(states, i) else Before(states, j))
  {
  }

  lemma FirstWithout(states: seq<State>, i: nat)
    requires i < |states|
    ensures var rest := Rest(states, i);
            (if rest == [] then null else rest[0]) == if i == 0 then After(states, 0) else states[0]
  {
  }

  lemma DistinctWithout(states: seq<State>, i: nat)
    requires i < |states| && forall j, k | 0 <= j < k < |states| :: states[j] != states[k]
    ensures var rest := Rest(states, i); forall j, k | 0 <= j < k < |rest| :: rest[j] != rest[k]
  {
  }

  class Device {
    var head: State?
    /** The states in list order. */
    ghost var states: seq<State>
    /** The state of each process that has one, and its opens not yet closed. */
    ghost var stateOf: map<nat, State>
    ghost var opens: map<nat, nat>

    /** `next` and `prev` run through the states in order, each undoing the other. */
    ghost predicate Linked()
      reads this`head, this`states, states
    {
      && head == (if states == [] then null else states[0])
      && (forall i, j | 0 <= i < j < |states| :: states[i] != states[j])
      && (forall i | 0 <= i < |states| :: states[i].next == After(states, i) && states[i].prev == Before(states, i))
    }

    /** One state per process, and one exactly for the processes with opens left. */
    ghost predicate Counted()
      reads this, states
    {
      && stateOf.Keys == opens.Keys
      && (forall s | s in states :: s.process in stateOf && stateOf[s.process] == s)
      && (forall p | p in stateOf ::
            stateOf[p] in states && stateOf[p].process == p && stateOf[p].openCount == opens[p] > 0)
    }

    ghost predicate Valid()
      reads this, states
    {
      Linked() && Counted()
    }

    constructor ()
      ensures Valid() && opens == map[] && states == []
    {
      head := null;
      states := [];
      stateOf, opens := map[], map[];
    }

    /** `state_find` */
    method Find(process: nat) returns (r: State?)
      requires Valid()
      ensures if process in opens then r == stateOf[process] && r in states else r == null
    {
      r := head;
      ghost var i := 0;
      while r != null
        invariant 0 <= i <= |states| && r == (if i < |states| then states[i] else null)
        invariant forall j | 0 <= j < i :: states[j].process != process
        decreases |states| - i
      {
        if r.process == process {
          return r;
        }
        r := r.next;
        i := i + 1;
      }
    }

    /** The lines of `kvm_dev_open` that put a new state at the front. */
    method Insert(state: State)
      requires Linked() && state !in states && state.prev == null
      modifies this`head, this`states, states`prev, state`next
      ensures Linked() && states == [state] + old(states)
    {
      state.next := head;
      if head != null {
        head.prev := state;
      }
      head := state;
      states := [state] + states;
    }

    lemma DistinctStates()
      requires Linked()
      ensures forall j, k | 0 <= j < k < |states| :: states[j] != states[k]
    {
    }

    /** A change of a count leaves the links alone. */
    method Recount(state: State, count: int)
      requires Linked()
      modifies state`openCount
      ensures Linked() && state.openCount == count
    {
      state.openCount := count;
    }

    /** The first open of a process. */
    method OpenFirst(process: nat) returns (state: State)
      requires Valid() && process !in opens
      modifies this, states`prev
      ensures Valid() && opens == old(opens)[process := 1]
      ensures fresh(state) && states == [state] + old(states)
    {
      hide Linked;
      state := new State(process);
      Insert(state);
      stateOf := stateOf[process := state];
      Recount(state, 1);
      opens := opens[process := 1];
    }

    /** Any other open. */
    method OpenAgain(state: State)
      requires Valid() && state in states
      modifies this`opens, state`openCount
      ensures Valid() && opens == old(opens)[state.process := old(opens)[state.process] + 1]
    {
      hide Linked;
      Recount(state, state.openCount + 1);
      opens := opens[state.process := opens[state.process] + 1];
    }

    /** `kvm_dev_open` */
    method Open(process: nat)
      requires Valid()
      modifies this, states
      ensures Valid()
      ensures opens == old(opens)[process := (if process in old(opens) then old(opens)[process] else 0) + 1]
      ensures if process in old(opens) then states == old(states)
              else |states| == |old(states)| + 1 && fresh(states[0]) && states[1..] == old(states)
    {
      hide Linked;
      var state := Find(process);
      if state == null {
        state := OpenFirst(process);
      } else {
        OpenAgain(state);
      }
    }

    /** The lines of `kvm_dev_close` that take a state out: its neighbours are joined. */
    method Unlink(state: State, ghost i: nat)
      requires Linked() && i < |states| && states[i] == state
      modifies this`head, states`next, states`prev
      ensures head == if i == 0 then After(states, 0) else states[0]
      ensures forall k | 0 <= k < |states| && k != i ::
                && states[k].next == (if k + 1 == i then After(states, i) else After(states, k))
                && states[k].prev == (if k == i + 1 then Before(states, i) else Before(states, k))
    {
      assert state.next == After(states, i) && state.prev == Before(states, i);
      if state.prev == null {
        head := state.next;
      } else {
        state.prev.next := state.next;
      }
      if state.next != null {
        state.next.prev := state.prev;
      }
    }

    method Remove(state: State, ghost i: nat)
      requires Linked() && i < |states| && states[i] == state
      modifies this`head, this`states, states`next, states`prev
      ensures Linked() && states == Rest(old(states), i)
    {
      hide After, Before, Rest;
      DistinctStates();
      DistinctWithout(states, i);
      FirstWithout(states, i);
      Unlink(state, i);
      ghost var was := states;
      states := Rest(states, i);
      forall k | 0 <= k < |states|
        ensures states[k].next == After(states, k) && states[k].prev == Before(states, k)
      {
        NeighboursWithout(was, i, if k < i then k else k + 1);
      }
    }

    /** Seen as a set, the list loses just that state. */
    method TakeOut(state: State)
      requires Linked() && state in states
      modifies this`head, this`states, states`next, states`prev
      ensures Linked() && forall s :: s in states <==> s in old(states) && s != state
    {
      hide Linked;
      ghost var i :| 0 <= i < |states| && states[i] == state;
      DistinctStates();
      Without(states, i);
      Remove(state, i);
    }

    /** The last close of a process. */
    method CloseLast(state: State)
      requires Valid() && state in states && opens[state.process] == 1
      modifies this, states`next, states`prev, state`openCount
      ensures Valid() && opens == old(opens) - {state.process}
      ensures forall s :: s in states <==> s in old(states) && s != state
    {
      hide Linked;
      Recount(state, state.openCount - 1);
      TakeOut(state);
      stateOf := stateOf - {state.process};
      opens := opens - {state.process};
      assert Counted() by {
        forall s | s in states
          ensures s.process in stateOf && stateOf[s.process] == s
        {
          assert s in old(states) && s != state;
        }
        forall p | p in stateOf
          ensures stateOf[p] in states && stateOf[p].process == p && stateOf[p].openCount == opens[p] > 0
        {
          assert stateOf[p] in old(states) && stateOf[p] != state;
        }
      }
    }

    /** Any other close. */
    method CloseOne(state: State)
      requires Valid() && state in states && opens[state.process] > 1
      modifies this`opens, state`openCount
      ensures Valid() && opens == old(opens)[state.process := old(opens)[state.process] - 1]
    {
      hide Linked;
      Recount(state, state.openCount - 1);
      opens := opens[state.process := opens[state.process] - 1];
    }

    /** `kvm_dev_close`; the process must have the device open. */
    method Close(process: nat)
      requires Valid() && process in opens
      modifies this, states
      ensures Valid()
      ensures opens == if old(opens)[process] == 1 then old(opens) - {process}
                       else old(opens)[process := old(opens)[process] - 1]
      ensures forall s :: s in states <==> s in old(states) && s.process in opens
    {
      hide Linked;
      var state := Find(process);
      if state.openCount - 1 == 0 {
        CloseLast(state);
      } else {
        CloseOne(state);
      }
    }
  }
}
