/** The contract of the chain executor (`CallStackIterator`) as a pure state
    machine over a stack of advice entries and `null` sentinels. */
module Chain {
  import opened Values
  import opened Advices

  /** A stack as the executor receives it: `None` is the `null` sentinel that
      marks where the raw method runs. */
  type Stack = seq<Option<StackEntry>>

  /** What the raw method does when applied to `scope` and `args`: the new
      `scope.name`, its return value, and the callbacks it invokes. */
  datatype RawEffect = RawEffect(name: Value, ret: Value, invoked: seq<Value>)

  /** The raw method, given the current `scope.name` and the current args. */
  type RawMethod = (Value, seq<Value>) -> RawEffect

  datatype Phase = Running | Paused | Stopped | Done

  /** What ran, at which stack position, with which arguments. */
  datatype Event =
    | AdviceRan(at: nat, params: seq<Param>)
    | MainRan(at: nat, args: seq<Value>, invoked: seq<Value>)

  /** The executor's position and phase together with the parts of the shared
      metadata it touches: `args`, `result` and `scope.name`. */
  datatype State = State(phase: Phase, index: nat, args: seq<Value>, result: Value, name: Value, trace: seq<Event>)

  /** An action from outside the synchronous run: a deferred callback editing
      the metadata, calling `this.next()`, or calling `this.stop()`. */
  datatype Op = Mutate(edit: MetaEdit) | Next | Stop

  function ApplyEdit(s: State, e: MetaEdit): (t: State)
    ensures t.phase == s.phase && t.index == s.index && t.name == s.name && t.trace == s.trace
  {
    s.(args := EditArgs(s.args, e), result := EditResult(s.result, e))
  }

  function ApplyEdits(s: State, es: seq<MetaEdit>): (t: State)
    ensures t.phase == s.phase && t.index == s.index && t.name == s.name && t.trace == s.trace
    decreases es
  {
    if es == [] then s else ApplyEdits(ApplyEdit(s, es[0]), es[1..])
  }

  /** Executes the entry at `s.index` (or finishes when there is none). */
  function Step(stack: Stack, raw: RawMethod, s: State): (t: State)
    requires s.phase == Running && s.index <= |stack|
    ensures t.index <= |stack|
    ensures t.index > s.index || (t.index == s.index && t.phase != Running)
  {
    if s.index == |stack| then s.(phase := Done)
    else match stack[s.index]
      case None =>
        var eff := raw(s.name, s.args);
        s.(index := s.index + 1, result := eff.ret, name := eff.name,
           trace := s.trace + [MainRan(s.index, s.args, eff.invoked)])
      case Some(e) =>
        var ran := s.(trace := s.trace + [AdviceRan(s.index, Inject(e.advice, e.args))]);
        var t := ApplyEdits(ran, e.advice.body.edits);
        if e.advice.body.ending == CallsStop then t.(phase := Stopped)
        else if e.advice.selfDriving && e.advice.body.ending == Returns then t.(phase := Paused)
        else t.(index := s.index + 1)
  }

  /** What one step does with each kind of entry. */
  lemma StepRule(stack: Stack, raw: RawMethod, s: State)
    requires s.phase == Running && s.index <= |stack|
    // Past the last entry the chain is done and nothing else changes.
    ensures s.index == |stack| ==> Step(stack, raw, s) == s.(phase := Done)
    // At the sentinel the raw method runs on the current args: its return
    // becomes the result, its effect on `this` the new name.
    ensures s.index < |stack| && stack[s.index].None? ==>
      var t, eff := Step(stack, raw, s), raw(s.name, s.args);
      && t.phase == Running && t.index == s.index + 1 && t.args == s.args
      && t.result == eff.ret && t.name == eff.name
      && t.trace == s.trace + [MainRan(s.index, s.args, eff.invoked)]
    // An advice runs on its injected parameters and edits the metadata; the
    // chain then stops if it called `stop()`, waits if it is self-driving and
    // returned without calling `next()`, and otherwise goes on by itself.
    ensures s.index < |stack| && stack[s.index].Some? ==>
      var t, e := Step(stack, raw, s), stack[s.index].value;
      var edited := ApplyEdits(s, e.advice.body.edits);
      && t.trace == s.trace + [AdviceRan(s.index, Inject(e.advice, e.args))]
      && t.args == edited.args && t.result == edited.result && t.name == s.name
      && (t.phase == Stopped <==> e.advice.body.ending == CallsStop)
      && (t.phase == Paused <==> e.advice.selfDriving && e.advice.body.ending == Returns)
      && (t.phase == Running <==> t.index == s.index + 1)
  {
    if s.index < |stack| && stack[s.index].Some? {
      var e := stack[s.index].value;
      var ran := s.(trace := s.trace + [AdviceRan(s.index, Inject(e.advice, e.args))]);
      EditsIgnoreTrace(s, ran, e.advice.body.edits);
    }
  }

  /** The edits see only `args` and `result`. */
  lemma {:induction false} EditsIgnoreTrace(s: State, r: State, es: seq<MetaEdit>)
    requires s.args == r.args && s.result == r.result
    ensures ApplyEdits(s, es).args == ApplyEdits(r, es).args
    ensures ApplyEdits(s, es).result == ApplyEdits(r, es).result
    decreases es
  {
    if es != [] {
      EditsIgnoreTrace(ApplyEdit(s, es[0]), ApplyEdit(r, es[0]), es[1..]);
    }
  }

  /** Runs synchronously until the chain pauses, stops or is done. */
  function RunFrom(stack: Stack, raw: RawMethod, s: State): (t: State)
    requires s.index <= |stack|
    ensures t.phase != Running && t.index <= |stack|
    ensures t.index >= s.index
    decreases |stack| - s.index, if s.phase == Running then 1 else 0
  {
    if s.phase != Running then s else RunFrom(stack, raw, Step(stack, raw, s))
  }

  function Initial(args: seq<Value>, result: Value, name: Value): State
  {
    State(Running, 0, args, result, name, [])
  }

  /** What constructing the executor does: start at the first entry and run
      until the chain waits, stops or is done. The trace then lists the
      entries run so far in stack order, and a chain run to the end ran the
      raw method once per sentinel. */
  function Start(stack: Stack, raw: RawMethod, args: seq<Value>, result: Value, name: Value): (t: State)
    ensures t.phase != Running && t.index <= |stack|
    ensures Inv(stack, t)
    ensures t.phase == Done ==> MainRuns(t.trace) == CountNull(stack)
  {
    var t := RunFrom(stack, raw, Initial(args, result, name));
    RunFromKeepsInv(stack, raw, Initial(args, result, name));
    MainRunsBounded(stack, t);
    assert t.phase == Done ==> stack[..|t.trace|] == stack;
    t
  }

  /** `next()`: a paused chain resumes at the following entry; elsewhere it
      does nothing. */
  function Resume(stack: Stack, raw: RawMethod, s: State): (t: State)
    requires s.index <= |stack|
    ensures t.index <= |stack| && t.index >= s.index
    ensures s.phase != Running ==> t.phase != Running
    ensures s.phase == Paused && s.index < |stack| ==> t.index > s.index
  {
    if s.phase == Paused && s.index < |stack| then RunFrom(stack, raw, s.(phase := Running, index := s.index + 1))
    else s
  }

  /** `stop()`: a paused chain stops for good; elsewhere it does nothing. */
  function Halt(s: State): (t: State)
    ensures t.index == s.index && t.trace == s.trace && t.args == s.args && t.result == s.result && t.name == s.name
    ensures t.phase == (if s.phase == Paused then Stopped else s.phase)
  {
    if s.phase == Paused then s.(phase := Stopped) else s
  }

  function Apply(stack: Stack, raw: RawMethod, s: State, op: Op): (t: State)
    requires s.index <= |stack|
    ensures t.index <= |stack| && t.index >= s.index
  {
    match op
    case Mutate(e) => ApplyEdit(s, e)
    case Next => Resume(stack, raw, s)
    case Stop => Halt(s)
  }

  function ApplyAll(stack: Stack, raw: RawMethod, s: State, ops: seq<Op>): (t: State)
    requires s.index <= |stack|
    ensures t.index <= |stack| && t.index >= s.index
    decreases |ops|
  {
    if ops == [] then s else ApplyAll(stack, raw, Apply(stack, raw, s, ops[0]), ops[1..])
  }

  /** A whole call: the synchronous start followed by deferred actions. */
  function Exec(stack: Stack, raw: RawMethod, args: seq<Value>, result: Value, name: Value, ops: seq<Op>): State
  {
    ApplyAll(stack, raw, Start(stack, raw, args, result, name), ops)
  }

  // ---------------------------------------------------------------------
  // The invariant: the trace lists the executed entries, one event each, in
  // stack order, and the main method ran exactly at the sentinels passed.

  /** How many entries have been executed. */
  function Executed(s: State): nat
  {
    if s.phase == Paused || s.phase == Stopped then s.index + 1 else s.index
  }

  ghost predicate Inv(stack: Stack, s: State)
  {
    && s.index <= |stack|
    && (s.phase == Paused || s.phase == Stopped ==> s.index < |stack| && stack[s.index].Some?)
    && (s.phase == Done ==> s.index == |stack|)
    && |s.trace| == Executed(s)
    && forall k :: 0 <= k < |s.trace| ==> s.trace[k].at == k && (s.trace[k].MainRan? <==> stack[k].None?)
  }

  lemma StepKeepsInv(stack: Stack, raw: RawMethod, s: State)
    requires Inv(stack, s) && s.phase == Running
    ensures Inv(stack, Step(stack, raw, s))
    ensures s.trace <= Step(stack, raw, s).trace
  {
  }

  lemma {:induction false} RunFromKeepsInv(stack: Stack, raw: RawMethod, s: State)
    requires Inv(stack, s)
    ensures Inv(stack, RunFrom(stack, raw, s))
    ensures s.trace <= RunFrom(stack, raw, s).trace
    decreases |stack| - s.index, if s.phase == Running then 1 else 0
  {
    if s.phase == Running {
      StepKeepsInv(stack, raw, s);
      RunFromKeepsInv(stack, raw, Step(stack, raw, s));
    }
  }

  lemma ApplyKeepsInv(stack: Stack, raw: RawMethod, s: State, op: Op)
    requires Inv(stack, s)
    ensures Inv(stack, Apply(stack, raw, s, op))
    ensures s.trace <= Apply(stack, raw, s, op).trace
  {
    if op.Next? && s.phase == Paused {
      var r := s.(phase := Running, index := s.index + 1);
      assert Executed(r) == Executed(s);
      RunFromKeepsInv(stack, raw, r);
    }
  }

  lemma {:induction false} ApplyAllKeepsInv(stack: Stack, raw: RawMethod, s: State, ops: seq<Op>)
    requires Inv(stack, s)
    ensures Inv(stack, ApplyAll(stack, raw, s, ops))
    ensures s.trace <= ApplyAll(stack, raw, s, ops).trace
    decreases |ops|
  {
    if ops != [] {
      ApplyKeepsInv(stack, raw, s, ops[0]);
      ApplyAllKeepsInv(stack, raw, Apply(stack, raw, s, ops[0]), ops[1..]);
    }
  }

  /** Every execution, whatever the deferred actions, keeps the invariant and
      never leaves the chain observably in the middle of a run. */
  lemma ExecKeepsInv(stack: Stack, raw: RawMethod, args: seq<Value>, result: Value, name: Value, ops: seq<Op>)
    ensures Inv(stack, Exec(stack, raw, args, result, name, ops))
    ensures Exec(stack, raw, args, result, name, ops).phase != Running
  {
    ApplyAllKeepsInv(stack, raw, Start(stack, raw, args, result, name), ops);
    NotRunningStays(stack, raw, Start(stack, raw, args, result, name), ops);
  }

  lemma {:induction false} NotRunningStays(stack: Stack, raw: RawMethod, s: State, ops: seq<Op>)
    requires s.index <= |stack| && s.phase != Running
    ensures ApplyAll(stack, raw, s, ops).phase != Running
    decreases |ops|
  {
    if ops != [] {
      NotRunningStays(stack, raw, Apply(stack, raw, s, ops[0]), ops[1..]);
    }
  }

  // ---------------------------------------------------------------------
  // Safety properties.

  function CountNull(stack: Stack): nat
  {
    if stack == [] then 0 else (if stack[0].None? then 1 else 0) + CountNull(stack[1..])
  }

  function MainRuns(trace: seq<Event>): nat
  {
    if trace == [] then 0 else (if trace[0].MainRan? then 1 else 0) + MainRuns(trace[1..])
  }

  lemma {:induction false} CountNullAppend(a: Stack, b: Stack)
    ensures CountNull(a + b) == CountNull(a) + CountNull(b)
  {
    if a != [] {
      assert (a + b)[0] == a[0] && (a + b)[1..] == a[1..] + b;
      CountNullAppend(a[1..], b);
    } else {
      assert a + b == b;
    }
  }

  lemma {:induction false} CountNullPrefix(stack: Stack, n: nat)
    requires n <= |stack|
    ensures CountNull(stack[..n]) <= CountNull(stack)
  {
    assert stack == stack[..n] + stack[n..];
    CountNullAppend(stack[..n], stack[n..]);
  }

  /** The main-method events of a trace matched position by position against
      a stack count the sentinels of that stack. */
  lemma {:induction false} MainRunsMatchSentinels(trace: seq<Event>, stack: Stack)
    requires |trace| == |stack|
    requires forall k :: 0 <= k < |trace| ==> (trace[k].MainRan? <==> stack[k].None?)
    ensures MainRuns(trace) == CountNull(stack)
  {
    if trace != [] {
      MainRunsMatchSentinels(trace[1..], stack[1..]);
    }
  }

  /** The raw method runs at most as often as the stack has sentinels, so at
      most once on an assembled stack. */
  lemma MainRunsBounded(stack: Stack, s: State)
    requires Inv(stack, s)
    ensures MainRuns(s.trace) == CountNull(stack[..|s.trace|])
    ensures MainRuns(s.trace) <= CountNull(stack)
  {
    MainRunsMatchSentinels(s.trace, stack[..|s.trace|]);
    CountNullPrefix(stack, |s.trace|);
  }

  /** Whatever the deferred actions, every executed entry appears once in the
      trace, in stack order, and the raw method ran exactly at sentinels:
      so it runs only after every entry before its sentinel has run. */
  lemma EntriesRunOnceInOrder(stack: Stack, raw: RawMethod, args: seq<Value>, result: Value, name: Value, ops: seq<Op>)
    ensures var t := Exec(stack, raw, args, result, name, ops).trace;
      && |t| <= |stack|
      && (forall k :: 0 <= k < |t| ==> t[k].at == k)
      && (forall k :: 0 <= k < |t| && t[k].MainRan? ==> stack[k].None?)
  {
    ExecKeepsInv(stack, raw, args, result, name, ops);
  }

  /** A chain halted in front of its first sentinel never ran the raw method. */
  lemma StoppedBeforeSentinel(stack: Stack, s: State)
    requires Inv(stack, s) && s.phase == Stopped
    requires forall i :: 0 <= i <= s.index ==> stack[i].Some?
    ensures MainRuns(s.trace) == 0
  {
    MainRunsBounded(stack, s);
    NoNullCount(stack[..|s.trace|]);
  }

  lemma {:induction false} NoNullCount(stack: Stack)
    requires forall i :: 0 <= i < |stack| ==> stack[i].Some?
    ensures CountNull(stack) == 0
  {
    if stack != [] {
      NoNullCount(stack[1..]);
    }
  }

  /** Once stopped or done, no deferred action makes anything run again: the
      trace, the phase and `scope.name` stay as they were. */
  lemma {:induction false} NothingRunsAfterTermination(stack: Stack, raw: RawMethod, s: State, ops: seq<Op>)
    requires s.index <= |stack| && (s.phase == Stopped || s.phase == Done)
    ensures ApplyAll(stack, raw, s, ops).trace == s.trace
    ensures ApplyAll(stack, raw, s, ops).phase == s.phase
    ensures ApplyAll(stack, raw, s, ops).name == s.name
    decreases |ops|
  {
    if ops != [] {
      NothingRunsAfterTermination(stack, raw, Apply(stack, raw, s, ops[0]), ops[1..]);
    }
  }

  /** A chain that is only a sentinel is a plain pass-through call: the raw
      method runs once with the original args and its return is the result. */
  lemma PassThrough(raw: RawMethod, args: seq<Value>, result: Value, name: Value)
    ensures Start([None], raw, args, result, name)
      == State(Done, 1, args, raw(name, args).ret, raw(name, args).name, [MainRan(0, args, raw(name, args).invoked)])
  {
    var s1 := Step([None], raw, Initial(args, result, name));
    assert RunFrom([None], raw, s1) == Step([None], raw, s1);
  }

  /** An entry the executor passes without waiting: the sentinel, or an
      advice that does not stop the chain and either is plain or calls
      `next()` before it returns. */
  predicate Proceeds(entry: Option<StackEntry>)
  {
    || entry.None?
    || (entry.value.advice.body.ending == CallsNext)
    || (!entry.value.advice.selfDriving && entry.value.advice.body.ending == Returns)
  }

  /** Advices that return or call `next()` synchronously let the chain go on
      by itself: a run crosses every such entry in a row. */
  lemma {:induction false} RunsPastProceeding(stack: Stack, raw: RawMethod, s: State, n: nat)
    requires s.phase == Running && s.index <= n <= |stack|
    requires forall i :: s.index <= i < n ==> Proceeds(stack[i])
    ensures RunFrom(stack, raw, s).index >= n
    decreases n - s.index
  {
    if s.index < n {
      var t := Step(stack, raw, s);
      assert t.index == s.index + 1 && t.phase == Running;
      RunsPastProceeding(stack, raw, t, n);
    }
  }

  lemma CountNullGrows(stack: Stack, a: nat, b: nat)
    requires a <= b <= |stack|
    ensures CountNull(stack[..a]) <= CountNull(stack[..b])
  {
    assert stack[..b][..a] == stack[..a];
    CountNullPrefix(stack[..b], a);
  }
}
