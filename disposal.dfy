/** The disposal stack: cleanup actions registered while the core runs, drained
    last-registered-first on shutdown, stopping at the first step that fails. */
module Disposal {
  import opened Wrappers
  import opened Collaborators

  /** A registered cleanup action. The only one the core registers ends the change
      stream with the given handle. */
  datatype DisposalStep = CancelChanges(stream: nat)

  /** What draining a stack did: the steps it ran in the order they ran, the steps
      left on the stack, and the outcome. */
  datatype Drained = Drained(ran: seq<DisposalStep>, remaining: seq<DisposalStep>, result: Result<(), Error>)

  function Reversed<T>(s: seq<T>): (r: seq<T>)
    ensures |r| == |s|
    ensures forall i :: 0 <= i < |s| ==> r[i] == s[|s| - 1 - i]
  {
    if s == [] then [] else [s[|s| - 1]] + Reversed(s[..|s| - 1])
  }

  /** Pops the top step and runs it, until the stack is empty or a step fails; a
      failing step has already been popped. `run` gives each step's outcome. */
  function Drain(stack: seq<DisposalStep>, run: DisposalStep -> Result<(), Error>): Drained
    decreases |stack|
  {
    if stack == [] then Drained([], [], Ok(()))
    else
      var top := stack[|stack| - 1];
      match run(top)
      case Err(e) => Drained([top], stack[..|stack| - 1], Err(e))
      case Ok(_) =>
        var rest := Drain(stack[..|stack| - 1], run);
        Drained([top] + rest.ran, rest.remaining, rest.result)
  }

  /** What any drain does: the k-th step run is the k-th from the top, the steps
      left are the bottom of the stack in their original order, every step but the
      last one run succeeded, success means every step ran, and a failure is the
      error of the last step run. */
  lemma {:induction false} DrainShape(stack: seq<DisposalStep>, run: DisposalStep -> Result<(), Error>)
    ensures var d := Drain(stack, run);
      |d.ran| <= |stack| &&
      (forall k :: 0 <= k < |d.ran| ==> d.ran[k] == stack[|stack| - 1 - k]) &&
      d.remaining == stack[..|stack| - |d.ran|] &&
      (forall k :: 0 <= k < |d.ran| - 1 ==> run(d.ran[k]).Ok?) &&
      (d.result.Ok? ==> |d.ran| == |stack| && forall k :: 0 <= k < |d.ran| ==> run(d.ran[k]).Ok?) &&
      (d.result.Err? ==> d.ran != [] && run(d.ran[|d.ran| - 1]) == Err(d.result.error))
    decreases |stack|
  {
    if stack != [] {
      var top := stack[|stack| - 1];
      var below := stack[..|stack| - 1];
      DrainShape(below, run);
      if run(top).Ok? {
        var rest := Drain(below, run);
        assert forall k :: 1 <= k <= |rest.ran| ==> ([top] + rest.ran)[k] == rest.ran[k - 1];
      }
    }
  }

  /** A successful drain ran every step, most recently registered first, and left
      the stack empty. */
  lemma DrainSucceeded(stack: seq<DisposalStep>, run: DisposalStep -> Result<(), Error>)
    requires Drain(stack, run).result.Ok?
    ensures Drain(stack, run).ran == Reversed(stack)
    ensures Drain(stack, run).remaining == []
  {
    DrainShape(stack, run);
  }

  /** Draining again after a successful drain runs nothing and changes nothing. */
  lemma DrainIdempotent(stack: seq<DisposalStep>, run: DisposalStep -> Result<(), Error>)
    requires Drain(stack, run).result.Ok?
    ensures Drain(Drain(stack, run).remaining, run) == Drained([], [], Ok(()))
  {
    DrainSucceeded(stack, run);
  }

  /** If the k-th popped step fails, exactly the k + 1 steps on top have been
      popped, no step below it ran, and the rest keep their order. */
  lemma {:induction false} DrainFailedAt(stack: seq<DisposalStep>, run: DisposalStep -> Result<(), Error>, k: nat)
    requires k < |stack|
    requires forall j :: 0 <= j < k ==> run(Reversed(stack)[j]).Ok?
    requires run(Reversed(stack)[k]).Err?
    ensures Drain(stack, run) ==
      Drained(Reversed(stack)[..k + 1], stack[..|stack| - 1 - k], Err(run(Reversed(stack)[k]).error))
  {
    var n := |stack|;
    var below := stack[..n - 1];
    assert Reversed(stack) == [stack[n - 1]] + Reversed(below);
    if k > 0 {
      assert run(Reversed(stack)[0]).Ok?;
      forall j | 0 <= j < k - 1
        ensures run(Reversed(below)[j]).Ok?
      {
        assert Reversed(below)[j] == Reversed(stack)[j + 1];
      }
      assert Reversed(below)[k - 1] == Reversed(stack)[k];
      DrainFailedAt(below, run, k - 1);
      assert below[..|below| - 1 - (k - 1)] == stack[..n - 1 - k];
      assert [stack[n - 1]] + Reversed(below)[..k] == Reversed(stack)[..k + 1];
    } else {
      assert Reversed(stack)[..1] == [stack[n - 1]];
    }
  }

  /** Draining a stack with `top` pushed last runs `top` first, then, if it
      succeeded, drains the rest. */
  lemma DrainPushed(below: seq<DisposalStep>, top: DisposalStep, run: DisposalStep -> Result<(), Error>)
    ensures Drain(below + [top], run) ==
      if run(top).Err? then Drained([top], below, Err(run(top).error))
      else Drained([top] + Drain(below, run).ran, Drain(below, run).remaining, Drain(below, run).result)
  {
    assert (below + [top])[..|below|] == below;
  }

  /** The cancellation the background task registers last is the first step a
      later drain runs; a drain that succeeds then runs the rest of the stack from
      the top down. */
  lemma CancellationRunsFirst(stack: seq<DisposalStep>, stream: nat, run: DisposalStep -> Result<(), Error>)
    ensures var d := Drain(stack + [CancelChanges(stream)], run);
      d.ran != [] && d.ran[0] == CancelChanges(stream) &&
      (d.result.Ok? ==> d.ran == [CancelChanges(stream)] + Reversed(stack))
  {
    DrainPushed(stack, CancelChanges(stream), run);
    if run(CancelChanges(stream)).Ok? && Drain(stack, run).result.Ok? {
      DrainSucceeded(stack, run);
    }
  }
}
