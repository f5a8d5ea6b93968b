/**
 * Intrusive reference counting, the superclass of every wrapped object: ref() and
 * unref() move a private counter, and the object is deleted when the counter
 * decreases to zero.
 */
module RefCounting {
  import opened CArith
  import opened Wrappers

  /** The abstract state of a counted object: its counter and whether it still exists. */
  datatype RefState = RefState(count: int, alive: bool)

  /** A freshly constructed object holds no references. */
  const Created: RefState := RefState(0, true)

  /** The invariant every reachable state keeps: a non-negative count, zero once deleted. */
  predicate Consistent(s: RefState)
  {
    0 <= s.count <= IntMax && (!s.alive ==> s.count == 0)
  }

  /** ref() is allowed on a live object whose `int` counter can still grow. */
  predicate CanRef(s: RefState)
  {
    s.alive && s.count < IntMax
  }

  /** unref() is allowed on a live object that holds a reference. */
  predicate CanUnref(s: RefState)
  {
    s.alive && s.count >= 1
  }

  function AfterRef(s: RefState): (t: RefState)
    requires CanRef(s)
    ensures t.count == s.count + 1 && t.alive
  {
    RefState(s.count + 1, true)
  }

  function AfterUnref(s: RefState): (t: RefState)
    requires CanUnref(s)
    ensures t.count == s.count - 1
    ensures t.alive <==> t.count != 0
  {
    RefState(s.count - 1, s.count - 1 != 0)
  }

  /** Both operations keep the invariant. */
  lemma StepsConsistent(s: RefState)
    requires Consistent(s)
    ensures CanRef(s) ==> Consistent(AfterRef(s))
    ensures CanUnref(s) ==> Consistent(AfterUnref(s))
  {
  }

  /** ref() then unref() on an object that holds a reference restores its state. */
  lemma RefThenUnref(s: RefState)
    requires CanRef(s) && s.count >= 1
    ensures CanUnref(AfterRef(s)) && AfterUnref(AfterRef(s)) == s
  {
  }

  datatype Op = Ref | Unref

  /** Applies a sequence of operations; None as soon as one is not permitted. */
  function Run(s: RefState, ops: seq<Op>): (r: Option<RefState>)
    decreases |ops|
  {
    if ops == [] then Some(s)
    else match ops[0]
      case Ref => if CanRef(s) then Run(AfterRef(s), ops[1..]) else None
      case Unref => if CanUnref(s) then Run(AfterUnref(s), ops[1..]) else None
  }

  function Refs(ops: seq<Op>): (n: nat)
    decreases |ops|
  {
    if ops == [] then 0 else (if ops[0] == Ref then 1 else 0) + Refs(ops[1..])
  }

  function Unrefs(ops: seq<Op>): (n: nat)
    decreases |ops|
  {
    if ops == [] then 0 else (if ops[0] == Unref then 1 else 0) + Unrefs(ops[1..])
  }

  /**
   * Over any permitted run the counter moves by the number of ref() calls minus the
   * number of unref() calls, and the invariant is kept.
   */
  lemma {:induction false} RunCount(s: RefState, ops: seq<Op>)
    requires Consistent(s) && Run(s, ops).Some?
    ensures Run(s, ops).value.count == s.count + Refs(ops) - Unrefs(ops)
    ensures Consistent(Run(s, ops).value)
    decreases |ops|
  {
    if ops != [] {
      var t := if ops[0] == Ref then AfterRef(s) else AfterUnref(s);
      RunCount(t, ops[1..]);
    }
  }

  /** No operation is permitted on a deleted object, so a deleted object stays deleted. */
  lemma {:induction false} DeletedIsFinal(s: RefState, ops: seq<Op>)
    requires !s.alive
    ensures Run(s, ops) == if ops == [] then Some(s) else None
  {
  }

  /** The counted object. */
  class Referenced {
    var counter: int
    ghost var alive: bool

    ghost function State(): RefState
      reads this
    {
      RefState(counter, alive)
    }

    ghost predicate Valid()
      reads this
    {
      Consistent(State())
    }

    constructor ()
      ensures Valid() && State() == Created
    {
      counter := 0;
      alive := true;
    }

    /** Increments the number of references to this object. */
    method Ref()
      requires Valid() && CanRef(State())
      modifies this
      ensures Valid() && State() == AfterRef(old(State()))
    {
      counter := counter + 1;
    }

    /** Decrements the number of references; at zero the object is deleted. */
    method Unref()
      requires Valid() && CanUnref(State())
      modifies this
      ensures Valid() && State() == AfterUnref(old(State()))
    {
      counter := counter - 1;
      if counter == 0 {
        alive := false;
      }
    }

    /** Returns the number of references to this object. */
    method RefCounter() returns (count: int)
      requires alive
      ensures count == counter
      ensures Valid() ==> count >= 0
    {
      count := counter;
    }
  }

  /** A client: ref() then unref() on an already shared object leaves it as it was. */
  method RefUnrefRestores(o: Referenced)
    requires o.Valid() && CanRef(o.State()) && o.counter >= 1
    modifies o
    ensures o.Valid() && o.State() == old(o.State()) && o.alive
  {
    o.Ref();
    o.Unref();
  }
}
