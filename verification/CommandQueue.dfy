/** The queue that hands work from the network thread to the game thread. Pushing, taking the
    queue over at the start of a drain, and clearing each happen under the lock; running the
    commands taken over does not, so other threads, and the commands themselves, may push
    (or clear) in between. */
module CommandQueue {
  import opened Types

  /** A command by the number of pushes before its own; one with nothing to execute is skipped. */
  datatype Command = Command(ticket: nat, callable: bool)

  datatype Step = Push(callable: bool) | Begin | RunNext | Clear

  /** The queue, the batch a drain is working through, the commands it is done with, and the
      commands whose body it called. */
  datatype State = State(pushed: nat, queued: seq<Command>, batch: seq<Command>, done: seq<Command>, called: seq<Command>)

  const EMPTY := State(0, [], [], [], [])

  /** One game thread drains, so a drain begins only after the previous one has finished. */
  predicate Enabled(s: State, step: Step) {
    match step
    case Begin => s.batch == []
    case RunNext => s.batch != []
    case _ => true
  }

  function Next(s: State, step: Step): State
    requires Enabled(s, step)
  {
    match step
    case Push(callable) => s.(pushed := s.pushed + 1, queued := s.queued + [Command(s.pushed, callable)])
    case Begin => s.(queued := [], batch := s.queued)
    case RunNext =>
      var c := s.batch[0];
      s.(batch := s.batch[1..], done := s.done + [c], called := if c.callable then s.called + [c] else s.called)
    case Clear => s.(queued := [])
  }

  function Callable(cs: seq<Command>): seq<Command> {
    if cs == [] then []
    else
      var rest := Callable(cs[..|cs| - 1]);
      if cs[|cs| - 1].callable then rest + [cs[|cs| - 1]] else rest
  }

  /** The called commands are those with a body, in order. */
  lemma {:induction false} CallablePicks(cs: seq<Command>, all: seq<Command>)
    requires cs <= all
    ensures Picks(Callable(cs), cs, (i: nat) => i < |all| && all[i].callable)
  {
    hide Picks;
    var test := (i: nat) => i < |all| && all[i].callable;
    if cs == [] {
      PicksNothing<Command>(test);
    } else {
      var front, last := cs[..|cs| - 1], cs[|cs| - 1];
      CallablePicks(front, all);
      PicksMore(Callable(front), front, test, last);
      assert cs == front + [last] && all[|front|] == last;
    }
  }

  // ----- every interleaving

  ghost predicate IsRun(states: seq<State>, steps: seq<Step>) {
    && |states| == |steps| + 1 && states[0] == EMPTY
    && forall i {:trigger steps[i]} :: 0 <= i < |steps| ==>
         Enabled(states[i], steps[i]) && states[i + 1] == Next(states[i], steps[i])
  }

  function Flow(s: State): seq<Command> { s.done + s.batch + s.queued }

  predicate Increasing(cs: seq<Command>) {
    forall i, j :: 0 <= i < j < |cs| ==> cs[i].ticket < cs[j].ticket
  }

  /** Nothing is duplicated or reordered, and what was called is what was done. */
  ghost predicate Inv(s: State) {
    && Increasing(Flow(s))
    && (forall i :: 0 <= i < |Flow(s)| ==> Flow(s)[i].ticket < s.pushed)
    && s.called == Callable(s.done)
  }

  /** The commands of the pushes, in push order. */
  function Pushes(steps: seq<Step>): seq<Command> {
    if steps == [] then []
    else
      var rest, last := Pushes(steps[..|steps| - 1]), steps[|steps| - 1];
      if last.Push? then rest + [Command(|rest|, last.callable)] else rest
  }

  lemma FlowNext(s: State, step: Step)
    requires Enabled(s, step)
    ensures step.Push? ==> Flow(Next(s, step)) == Flow(s) + [Command(s.pushed, step.callable)]
    ensures step.Begin? || step.RunNext? ==> Flow(Next(s, step)) == Flow(s)
    ensures step.Clear? ==> Flow(Next(s, step)) == Flow(s)[..|s.done| + |s.batch|]
  {}

  lemma NextKeepsInv(s: State, step: Step)
    requires Inv(s) && Enabled(s, step)
    ensures Inv(Next(s, step))
  {
    FlowNext(s, step);
    if step.RunNext? {
      assert (s.done + [s.batch[0]])[..|s.done|] == s.done;
    }
    hide Flow;
  }

  lemma {:induction false} RunKeepsInv(states: seq<State>, steps: seq<Step>)
    requires IsRun(states, steps)
    ensures Inv(states[|steps|])
  {
    if steps != [] {
      var n := |steps| - 1;
      RunPrefix(states, steps);
      RunKeepsInv(states[..n + 1], steps[..n]);
      NextKeepsInv(states[n], steps[n]);
    }
  }

  lemma RunPrefix(states: seq<State>, steps: seq<Step>)
    requires IsRun(states, steps) && steps != []
    ensures var n := |steps| - 1;
            IsRun(states[..n + 1], steps[..n]) && Enabled(states[n], steps[n]) &&
            states[n + 1] == Next(states[n], steps[n])
  {
    var n := |steps| - 1;
    var step := steps[n];
    assert forall i :: 0 <= i < n ==> steps[..n][i] == steps[i];
  }

  /** Without a clear: done, in progress and queued commands are exactly the push history. */
  lemma {:induction false} RunConserves(states: seq<State>, steps: seq<Step>)
    requires IsRun(states, steps) && forall i :: 0 <= i < |steps| ==> !steps[i].Clear?
    ensures Flow(states[|steps|]) == Pushes(steps) && states[|steps|].pushed == |Pushes(steps)|
  {
    if steps != [] {
      var n := |steps| - 1;
      RunPrefix(states, steps);
      assert forall i :: 0 <= i < n ==> !steps[..n][i].Clear?;
      RunConserves(states[..n + 1], steps[..n]);
      FlowNext(states[n], steps[n]);
      hide Flow;
    }
  }

  /** So when a drain finishes with the queue empty, every push has run once, in push order. */
  lemma AllRunInOrder(states: seq<State>, steps: seq<Step>)
    requires IsRun(states, steps) && forall i :: 0 <= i < |steps| ==> !steps[i].Clear?
    requires states[|steps|].batch == [] && states[|steps|].queued == []
    ensures states[|steps|].done == Pushes(steps)
    ensures states[|steps|].called == Callable(Pushes(steps))
  {
    RunConserves(states, steps);
    RunKeepsInv(states, steps);
    hide IsRun, Pushes, Callable, Increasing;
  }

  predicate NoClear(steps: seq<Step>) { forall i :: 0 <= i < |steps| ==> !steps[i].Clear? }

  lemma LongerRun(states: seq<State>, steps: seq<Step>, step: Step)
    requires IsRun(states, steps) && Enabled(states[|steps|], step)
    ensures IsRun(states + [Next(states[|steps|], step)], steps + [step])
  {
    hide Next, Enabled;
    var states', steps' := states + [Next(states[|steps|], step)], steps + [step];
    forall i {:trigger steps'[i]} | 0 <= i < |steps'|
      ensures Enabled(states'[i], steps'[i]) && states'[i + 1] == Next(states'[i], steps'[i])
    {
      assert i < |steps| ==> steps'[i] == steps[i];
    }
  }

  /** The queue as the program has it, with the record of what was done to it. */
  class GameCommandQueue {
    var commands: seq<Command>
    var local: seq<Command>
    ghost var pushed: nat
    ghost var done: seq<Command>
    ghost var called: seq<Command>
    ghost var states: seq<State>
    ghost var steps: seq<Step>

    ghost function View(): State
      reads this
    {
      State(pushed, commands, local, done, called)
    }

    ghost predicate Valid()
      reads this
    {
      IsRun(states, steps) && View() == states[|steps|]
    }

    /** Nothing ran twice or out of order; and unless the queue was cleared, what is done, in
        progress and queued is the push history. */
    lemma Conserved()
      requires Valid()
      ensures Inv(View())
      ensures NoClear(steps) ==> Flow(View()) == Pushes(steps)
      ensures NoClear(steps) && commands == [] && local == [] ==> called == Callable(Pushes(steps))
    {
      hide Flow, Inv, Pushes, Callable;
      RunKeepsInv(states, steps);
      if NoClear(steps) {
        RunConserves(states, steps);
        if commands == [] && local == [] {
          AllRunInOrder(states, steps);
        }
      }
    }

    ghost method Record(step: Step)
      requires IsRun(states, steps) && Enabled(states[|steps|], step) && View() == Next(states[|steps|], step)
      modifies this`states, this`steps
      ensures Valid() && steps == old(steps) + [step]
    {
      hide Next, Enabled;
      LongerRun(states, steps, step);
      states, steps := states + [View()], steps + [step];
    }

    constructor ()
      ensures Valid() && View() == EMPTY && steps == []
    {
      commands, local, pushed, done, called := [], [], 0, [], [];
      states, steps := [EMPTY], [];
    }

    method Push(c: Command)
      requires Valid() && c.ticket == pushed
      modifies this
      ensures Valid() && steps == old(steps) + [Step.Push(c.callable)]
    {
      commands := commands + [c];
      pushed := pushed + 1;
      Record(Step.Push(c.callable));
    }

    method BeginDrain()
      requires Valid() && local == []
      modifies this
      ensures Valid() && steps == old(steps) + [Begin]
      ensures View() == Next(old(View()), Begin)
    {
      if commands != [] {
        local, commands := commands, local;
      }
      Record(Begin);
    }

    method RunNext() returns (call: bool)
      requires Valid() && local != []
      modifies this
      ensures Valid() && steps == old(steps) + [Step.RunNext]
      ensures View() == Next(old(View()), Step.RunNext)
      ensures call == old(local)[0].callable
    {
      var c := local[0];
      call := c.callable;
      if call {
        called := called + [c];
      }
      local := local[1..];
      done := done + [c];
      Record(Step.RunNext);
    }

    /** A drain that nothing interrupts: it runs everything that was queued, in order, and if
        the queue was never cleared, everything ever pushed has then run once, in push order. */
    method DrainAll()
      requires Valid() && local == []
      modifies this
      ensures Valid() && commands == [] && local == [] && pushed == old(pushed)
      ensures done == old(done) + old(commands)
      ensures called == old(called) + Callable(old(commands))
      ensures NoClear(old(steps)) ==> called == Callable(Pushes(steps))
    {
      hide Pushes, IsRun;
      BeginDrain();
      ghost var batch, i := local, 0;
      while local != []
        invariant Valid() && (NoClear(old(steps)) ==> NoClear(steps))
        invariant batch == old(commands) && commands == [] && pushed == old(pushed)
        invariant 0 <= i <= |batch| && local == batch[i..] && done == old(done) + batch[..i]
        invariant called == old(called) + Callable(batch[..i])
        decreases |local|
      {
        assert batch[..i + 1][..i] == batch[..i];
        var _ := RunNext();
        i := i + 1;
      }
      assert batch[..|batch|] == batch;
      Conserved();
    }

    method Clear()
      requires Valid()
      modifies this
      ensures Valid() && steps == old(steps) + [Step.Clear]
    {
      commands := [];
      Record(Step.Clear);
    }
  }
}
