/** The executor and wrapper scenarios of the test suite, each a method whose
    contract states what the test expects. */
module Scenarios {
  import opened Values
  import opened Advices
  import opened Chain
  import opened Executor
  import opened Bootstrap

  /** The raw method of most tests: it sets the caller's name to its first
      argument and returns that argument (`undefined` when there is none). */
  function SetName(name: Value, args: seq<Value>): (r: RawEffect)
    ensures |args| == 0 ==> r.name == Undefined && r.ret == Undefined
    ensures |args| > 0 ==> r.name == args[0] && r.ret == args[0]
    ensures r.invoked == []
  {
    RawEffect(ArgAt(args, 0), ArgAt(args, 0), [])
  }

  /** JavaScript `+` on two strings (concatenation) or two numbers (sum);
      the result is a string exactly when both operands are strings. */
  function Plus(a: Value, b: Value): (r: Value)
    ensures r.Str? <==> a.Str? && b.Str?
    ensures r.Num? <==> a.Num? && b.Num?
    ensures a.Str? && b.Str? ==> r.s == a.s + b.s
    ensures a.Num? && b.Num? ==> r.n == a.n + b.n
  {
    if a.Str? && b.Str? then Str(a.s + b.s)
    else if a.Num? && b.Num? then Num(a.n + b.n)
    else Undefined
  }

  /** The raw method of the deferred test: it sets the caller's name to the
      sum of its first two arguments, invokes the third as a callback and
      returns nothing. */
  function Combine(name: Value, args: seq<Value>): (r: RawEffect)
    ensures |args| >= 2 && args[0].Str? && args[1].Str? ==> r.name == Str(args[0].s + args[1].s)
    ensures |args| < 2 ==> r.name == Undefined
    ensures |args| >= 3 ==> r.invoked == [args[2]]
    ensures |args| < 3 ==> r.invoked == [Undefined]
    ensures r.ret == Undefined
  {
    RawEffect(Plus(ArgAt(args, 0), ArgAt(args, 1)), Undefined, [ArgAt(args, 2)])
  }

  /** The metadata every executor test starts from. */
  method Fixture(raw: RawMethod) returns (md: Metadata)
    ensures fresh(md) && fresh(md.scope)
    ensures md.scope.name == Str("Jon") && md.rawMethod == raw
    ensures md.args == [Str("Peter")] && md.result == Undefined
  {
    var scope := new Scope(Str("Jon"));
    md := new Metadata(scope, "Person", "setName", raw, [Str("Peter")], Undefined);
  }

  /** A stack of only the sentinel runs the raw method at once, once. */
  method ImmediateRun() returns (ghost runs: nat, result: Value, name: Value)
    ensures runs == 1 && result == Str("Peter") && name == Str("Peter")
  {
    var md := Fixture(SetName);
    var it := new CallStackIterator(md, [None], NoEntry);
    PassThrough(SetName, [Str("Peter")], Undefined, Str("Jon"));
    assert it.View() == State(Done, 1, [Str("Peter")], Str("Peter"), Str("Peter"), [MainRan(0, [Str("Peter")], [])]);
    assert it.trace[1..] == [];
    runs, result, name := MainRuns(it.trace), md.result, md.scope.name;
  }

  /** A plain advice receiving the metadata in slot 0 pops the only argument;
      the chain goes on by itself and the raw method sees no argument. */
  method PopBeforeMain() returns (ghost trace: seq<Event>, ghost params: seq<Param>, ghost runs: nat, result: Value, name: Value, phase: Phase)
    ensures trace == [AdviceRan(0, [MetaParam]), MainRan(1, [], [])]
    ensures params == [MetaParam]
    ensures runs == 1 && result == Undefined && name == Undefined && phase == Done
  {
    var md := Fixture(SetName);
    var popper := Advice(Some(0), [], false, AdviceBody([PopArg], Returns));
    var stack := [Some(StackEntry(popper, [])), None];
    ghost var s1 := Step(stack, SetName, Initial([Str("Peter")], Undefined, Str("Jon")));
    assert Inject(popper, []) == [MetaParam];
    assert s1 == State(Running, 1, [], Undefined, Str("Jon"), [AdviceRan(0, [MetaParam])]);
    ghost var s2 := Step(stack, SetName, s1);
    assert s2 == State(Running, 2, [], Undefined, Undefined, s1.trace + [MainRan(1, [], [])]);
    assert RunFrom(stack, SetName, s2) == s2.(phase := Done);
    assert RunFrom(stack, SetName, s1) == RunFrom(stack, SetName, s2);
    assert Start(stack, SetName, [Str("Peter")], Undefined, Str("Jon")) == RunFrom(stack, SetName, s1);
    var it := new CallStackIterator(md, stack, NoEntry);
    assert it.View() == s2.(phase := Done);
    assert it.trace == [AdviceRan(0, [MetaParam]), MainRan(1, [], [])];
    assert it.trace[1..][1..] == [];
    assert MainRuns(it.trace[1..]) == 1;
    trace, params := it.trace, it.trace[0].params;
    runs, result, name, phase := MainRuns(it.trace), md.result, md.scope.name, it.phase;
  }

  /** An after-advice runs only once the raw method has run. */
  method AfterMain() returns (ghost trace: seq<Event>, ghost runs: nat, result: Value, name: Value)
    ensures trace == [MainRan(0, [Str("Peter")], []), AdviceRan(1, [])]
    ensures runs == 1 && result == Str("Peter") && name == Str("Peter")
  {
    var md := Fixture(SetName);
    var timerAdvice := Advice(None, [], false, AdviceBody([], Returns));
    var stack := [None, Some(StackEntry(timerAdvice, []))];
    ghost var s1 := Step(stack, SetName, Initial([Str("Peter")], Undefined, Str("Jon")));
    assert s1 == State(Running, 1, [Str("Peter")], Str("Peter"), Str("Peter"), [MainRan(0, [Str("Peter")], [])]);
    assert Inject(timerAdvice, []) == [];
    ghost var s2 := Step(stack, SetName, s1);
    assert s2 == s1.(index := 2, trace := s1.trace + [AdviceRan(1, [])]);
    assert RunFrom(stack, SetName, s2) == s2.(phase := Done);
    assert RunFrom(stack, SetName, s1) == RunFrom(stack, SetName, s2);
    assert Start(stack, SetName, [Str("Peter")], Undefined, Str("Jon")) == RunFrom(stack, SetName, s1);
    var it := new CallStackIterator(md, stack, NoEntry);
    assert it.View() == s2.(phase := Done);
    trace := it.trace;
    assert trace[1..][1..] == [];
    assert MainRuns(trace[1..]) == 0;
    runs, result, name := MainRuns(trace), md.result, md.scope.name;
  }

  /** The self-driving advice of the deferred test: metadata in slot 0, no
      synchronous effect. */
  function Deferrer(): Advice
  {
    Advice(Some(0), [], true, AdviceBody([], Returns))
  }

  function DeferredStack(): Stack
  {
    [Some(StackEntry(Deferrer(), [])), Some(StackEntry(Deferrer(), [])), None]
  }

  /** The three settled states of the deferred test: paused at the first
      advice, paused at the second, and done. */
  function FirstPause(): State
  {
    State(Paused, 0, [Str("Peter")], Undefined, Str("Jon"), [AdviceRan(0, [MetaParam])])
  }

  function SecondPause(): State
  {
    State(Paused, 1, [Str("Peter"), Str("someFakeString")], Undefined, Str("Jon"),
          [AdviceRan(0, [MetaParam]), AdviceRan(1, [MetaParam])])
  }

  function Finished(): State
  {
    var args := [Str("Peter"), Str("someFakeString"), Fn(0)];
    State(Done, 3, args, Undefined, Str("PetersomeFakeString"),
          [AdviceRan(0, [MetaParam]), AdviceRan(1, [MetaParam]), MainRan(2, args, [Fn(0)])])
  }

  /** Construction pauses at the first advice, which received the metadata,
      before the raw method ran. */
  lemma DeferredFirstPause()
    ensures Start(DeferredStack(), Combine, [Str("Peter")], Undefined, Str("Jon")) == FirstPause()
  {
    var stack := DeferredStack();
    assert Inject(Deferrer(), []) == [MetaParam];
    assert Step(stack, Combine, Initial([Str("Peter")], Undefined, Str("Jon"))) == FirstPause();
  }

  /** The first callback pushes an argument and calls `next()`: the chain
      pauses at the second advice. */
  lemma DeferredSecondPause()
    ensures Chain.Resume(DeferredStack(), Combine, ApplyEdit(FirstPause(), PushArg(Str("someFakeString")))) == SecondPause()
  {
    var stack := DeferredStack();
    assert Inject(Deferrer(), []) == [MetaParam];
    var s0 := ApplyEdit(FirstPause(), PushArg(Str("someFakeString")));
    assert s0.args == [Str("Peter"), Str("someFakeString")];
    var s1 := s0.(phase := Running, index := 1);
    assert Step(stack, Combine, s1) == SecondPause();
    assert RunFrom(stack, Combine, s1) == RunFrom(stack, Combine, SecondPause()) == SecondPause();
  }

  /** The second callback pushes the callback argument and calls `next()`:
      the raw method runs once on `["Peter", "someFakeString", callback]`,
      concatenating the first two and invoking the callback. */
  lemma DeferredFinish()
    ensures Chain.Resume(DeferredStack(), Combine, ApplyEdit(SecondPause(), PushArg(Fn(0)))) == Finished()
  {
    var stack := DeferredStack();
    var args3 := [Str("Peter"), Str("someFakeString"), Fn(0)];
    var s0 := ApplyEdit(SecondPause(), PushArg(Fn(0)));
    assert s0.args == args3;
    assert "Peter" + "someFakeString" == "PetersomeFakeString";
    assert Combine(Str("Jon"), args3) == RawEffect(Str("PetersomeFakeString"), Undefined, [Fn(0)]);
    var s3 := Finished().(phase := Running);
    assert Step(stack, Combine, s0.(phase := Running, index := 2)) == s3;
    assert RunFrom(stack, Combine, s3) == Finished();
  }

  /** The finished trace of the deferred test holds one raw-method run. */
  lemma DeferredRuns()
    ensures MainRuns(Finished().trace) == 1
  {
    var trace := Finished().trace;
    assert trace[1..][1..][1..] == [];
    assert MainRuns(trace[1..][1..]) == 1;
    assert MainRuns(trace[1..]) == 1;
  }

  /** The deferred callback of the test: it pushes an argument onto the
      shared metadata, then calls `this.next()`. */
  method PushThenNext(it: CallStackIterator, v: Value)
    requires it.Valid()
    modifies it, it.metadata, it.metadata.scope
    ensures it.Valid()
    ensures it.View() == Chain.Resume(it.stack, it.metadata.rawMethod, ApplyEdit(old(it.View()), PushArg(v)))
  {
    it.metadata.Edit(PushArg(v));
    it.Resume();
  }

  /** Two before-advices that each defer, push an argument and call
      `this.next()`: the raw method runs once, after both resumed, with the
      pushed arguments in advice order. */
  method TwoDeferredAdvices() returns (ghost runsWhilePaused: nat, ghost trace: seq<Event>, ghost runs: nat, result: Value, name: Value)
    ensures runsWhilePaused == 0
    ensures trace == [AdviceRan(0, [MetaParam]), AdviceRan(1, [MetaParam]),
                      MainRan(2, [Str("Peter"), Str("someFakeString"), Fn(0)], [Fn(0)])]
    ensures runs == 1
    ensures name == Str("PetersomeFakeString") && result == Undefined
  {
    var md := Fixture(Combine);
    DeferredFirstPause();
    DeferredSecondPause();
    DeferredFinish();
    DeferredRuns();
    var it := new CallStackIterator(md, DeferredStack(), NoEntry);
    assert it.View() == FirstPause();
    runsWhilePaused := MainRuns(it.trace);
    PushThenNext(it, Str("someFakeString"));
    assert it.View() == SecondPause();
    PushThenNext(it, Fn(0));
    assert it.View() == Finished();
    trace, runs, result, name := it.trace, MainRuns(it.trace), md.result, md.scope.name;
  }

  /** `$$params = [undefined, 0]` with entry args `[3]`: slot 0 is undefined,
      slot 1 is 3; the advice stops the chain and the raw method never runs. */
  method ParamsThenStop() returns (ghost params: seq<Param>, ghost runs: nat, result: Value, phase: Phase)
    ensures params == [Arg(Undefined), Arg(Num(3))]
    ensures runs == 0 && result == Undefined && phase == Stopped
  {
    var md := Fixture(SetName);
    var stopper := Advice(None, [None, Some(0)], false, AdviceBody([], CallsStop));
    var stack := [Some(StackEntry(stopper, [Num(3)])), None];
    assert Inject(stopper, [Num(3)]) == [Arg(Undefined), Arg(Num(3))];
    ghost var s1 := State(Stopped, 0, [Str("Peter")], Undefined, Str("Jon"), [AdviceRan(0, [Arg(Undefined), Arg(Num(3))])]);
    assert Step(stack, SetName, Initial([Str("Peter")], Undefined, Str("Jon"))) == s1;
    assert Start(stack, SetName, [Str("Peter")], Undefined, Str("Jon")) == RunFrom(stack, SetName, s1) == s1;
    var it := new CallStackIterator(md, stack, NoEntry);
    assert it.View() == s1;
    params := it.trace[0].params;
    assert it.trace[1..] == [];
    runs, result, phase := MainRuns(it.trace), md.result, it.phase;
  }

  /** A wrapper with freshly built reflection properties passes the call
      straight to the raw method. */
  method DefaultWrapper() returns (r: Value, name: Value)
    ensures r == Str("Peter") && name == Str("Peter")
  {
    var fn := new FnRef("Person", "setName", SetName);
    BuildReflectionProperties(fn);
    var scope := new Scope(Str("Jon"));
    var md, it;
    r, md, it := fn.Invoke(scope, [Str("Peter")]);
    assert AssembleStack([], []) == [None];
    PassThrough(SetName, [Str("Peter")], Undefined, Str("Jon"));
    name := scope.name;
  }

  /** The wrapper returns `result` as it stands when the executor's
      construction returns; a later resumption that sets it is not seen. */
  method DeferredResultNotReturned() returns (r: Value, later: Value)
    ensures r == Undefined && later == Str("Peter")
  {
    var fn := new FnRef("Person", "setName", SetName);
    BuildReflectionProperties(fn);
    var waiter := Advice(None, [], true, AdviceBody([], Returns));
    fn.before := Some([Some(StackEntry(waiter, []))]);
    var stack := [Some(StackEntry(waiter, [])), None];
    assert AssembleStack(fn.before.value, []) == stack;
    assert Inject(waiter, []) == [];
    ghost var s1 := State(Paused, 0, [Str("Peter")], Undefined, Str("Jon"), [AdviceRan(0, [])]);
    assert Step(stack, SetName, Initial([Str("Peter")], Undefined, Str("Jon"))) == s1;
    assert Start(stack, SetName, [Str("Peter")], Undefined, Str("Jon")) == RunFrom(stack, SetName, s1) == s1;
    ghost var s2 := State(Running, 2, [Str("Peter")], Str("Peter"), Str("Peter"), s1.trace + [MainRan(1, [Str("Peter")], [])]);
    assert Step(stack, SetName, s1.(phase := Running, index := 1)) == s2;
    assert RunFrom(stack, SetName, s2) == s2.(phase := Done);
    assert Chain.Resume(stack, SetName, s1) == RunFrom(stack, SetName, s2);
    var scope := new Scope(Str("Jon"));
    var md, it;
    r, md, it := fn.Invoke(scope, [Str("Peter")]);
    assert it.View() == s1;
    it.Resume();
    assert it.View() == s2.(phase := Done);
    later := md.result;
  }

  /** A self-driving advice that calls `this.next()` before it returns: the
      rest of the chain runs inside the executor's construction, so the
      wrapper already returns the raw method's result. */
  method SynchronousNext() returns (r: Value, name: Value, phase: Phase)
    ensures r == Str("Peter") && name == Str("Peter") && phase == Done
  {
    var fn := new FnRef("Person", "setName", SetName);
    BuildReflectionProperties(fn);
    var driver := Advice(Some(0), [], true, AdviceBody([], CallsNext));
    fn.before := Some([Some(StackEntry(driver, []))]);
    var stack := [Some(StackEntry(driver, [])), None];
    assert AssembleStack(fn.before.value, []) == stack;
    assert Inject(driver, []) == [MetaParam];
    ghost var s1 := State(Running, 1, [Str("Peter")], Undefined, Str("Jon"), [AdviceRan(0, [MetaParam])]);
    assert Step(stack, SetName, Initial([Str("Peter")], Undefined, Str("Jon"))) == s1;
    ghost var s2 := State(Running, 2, [Str("Peter")], Str("Peter"), Str("Peter"), s1.trace + [MainRan(1, [Str("Peter")], [])]);
    assert Step(stack, SetName, s1) == s2;
    assert RunFrom(stack, SetName, s2) == s2.(phase := Done);
    assert RunFrom(stack, SetName, s1) == RunFrom(stack, SetName, s2);
    assert Start(stack, SetName, [Str("Peter")], Undefined, Str("Jon")) == RunFrom(stack, SetName, s1);
    var scope := new Scope(Str("Jon"));
    var md, it;
    r, md, it := fn.Invoke(scope, [Str("Peter")]);
    assert it.View() == s2.(phase := Done);
    name, phase := scope.name, it.phase;
  }
}
