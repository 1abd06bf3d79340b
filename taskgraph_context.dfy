/** The graph context: the LIFO stack of graphs being declared or executed. In
    Python it is a class-level list; here it is one object that every operation
    which consults it receives. */
module GraphContextStack {
  import opened Results
  import opened TaskValues

  /** The top of a stack, or the error current() raises on an empty one. */
  function Top<G>(s: seq<G>): (r: Result<G, TaskError>)
    ensures r.Failure? <==> |s| == 0
    ensures r.Failure? ==> r.error == NoActiveGraph
    ensures r.Success? ==> r.value == s[|s| - 1]
  {
    if |s| == 0 then Failure(NoActiveGraph) else Success(s[|s| - 1])
  }

  /** The stack after pop(), or the error list.pop() raises on an empty one. */
  function Popped<G>(s: seq<G>): (r: Result<seq<G>, TaskError>)
    ensures r.Failure? <==> |s| == 0
    ensures r.Failure? ==> r.error == PopFromEmptyStack
    ensures r.Success? ==> r.value + [s[|s| - 1]] == s
  {
    if |s| == 0 then Failure(PopFromEmptyStack) else Success(s[..|s| - 1])
  }

  class GraphContext<G> {
    var stack: seq<G>

    constructor ()
      ensures stack == []
    {
      stack := [];
    }

    /** push: the graph becomes the top. */
    method Push(g: G)
      modifies this
      ensures stack == old(stack) + [g]
      ensures Current() == Success(g)
    {
      stack := stack + [g];
    }

    /** pop: removes the top; on an empty stack it fails and changes nothing. */
    method Pop() returns (r: Outcome<TaskError>)
      modifies this
      ensures old(stack) == [] ==> r == Fail(PopFromEmptyStack) && stack == []
      ensures old(stack) != [] ==> r == Pass && stack == old(stack)[..|old(stack)| - 1]
      ensures old(stack) != [] ==> stack + [old(stack)[|old(stack)| - 1]] == old(stack)
    {
      if |stack| == 0 {
        return Fail(PopFromEmptyStack);
      }
      stack := stack[..|stack| - 1];
      return Pass;
    }

    /** current: the top graph, without changing the stack. */
    function Current(): (r: Result<G, TaskError>)
      reads this
      ensures r == Top(stack)
    {
      if |stack| == 0 then Failure(NoActiveGraph) else Success(stack[|stack| - 1])
    }
  }

  /** Pushes and pops nest: with gs pushed on top of s one by one, at every depth n
      the current graph is the n-th pushed and a pop returns to depth n - 1, so the
      graphs come back off in reverse order and the last pop leaves s. */
  lemma NestedPushPop<G>(s: seq<G>, gs: seq<G>)
    ensures forall n :: 0 < n <= |gs| ==> Top(s + gs[..n]) == Success(gs[n - 1])
    ensures forall n :: 0 < n <= |gs| ==> Popped(s + gs[..n]) == Success(s + gs[..n - 1])
    ensures s + gs[..0] == s
  {
    forall n | 0 < n <= |gs|
      ensures Top(s + gs[..n]) == Success(gs[n - 1])
      ensures Popped(s + gs[..n]) == Success(s + gs[..n - 1])
    {
      assert s + gs[..n] == (s + gs[..n - 1]) + [gs[n - 1]];
      assert (s + gs[..n])[..|s + gs[..n - 1]|] == s + gs[..n - 1];
    }
    assert gs[..0] == [];
  }
}
