/** The wrapper that replaces a decorated method: per call it builds the
    metadata, assembles `before ++ [null] ++ after` and runs the executor. */
module Bootstrap {
  import opened Values
  import opened Advices
  import opened Chain
  import opened Executor

  /** The stack of one call: the before-advices, one sentinel for the raw
      method, then the after-advices. */
  function AssembleStack(before: Stack, after: Stack): (stack: Stack)
    ensures |stack| == |before| + 1 + |after|
    ensures stack[..|before|] == before
    ensures stack[|before|] == None
    ensures stack[|before| + 1..] == after
  {
    before + [None] + after
  }

  predicate NullFree(advices: Stack)
  {
    forall i :: 0 <= i < |advices| ==> advices[i].Some?
  }

  /** With null-free advice lists the sentinel occurs exactly once, right
      after the before-advices. */
  lemma SentinelOnce(before: Stack, after: Stack)
    requires NullFree(before) && NullFree(after)
    ensures forall i :: 0 <= i < |AssembleStack(before, after)| ==>
              (AssembleStack(before, after)[i].None? <==> i == |before|)
    ensures CountNull(AssembleStack(before, after)) == 1
  {
    var stack := AssembleStack(before, after);
    forall i | 0 <= i < |stack|
      ensures stack[i].None? <==> i == |before|
    {
      if i < |before| {
        assert stack[i] == stack[..|before|][i];
      } else if i > |before| {
        assert stack[i] == stack[|before| + 1..][i - |before| - 1];
      }
    }
    CountNullAppend(before, [None]);
    CountNullAppend(before + [None], after);
    NoNullCount(before);
    NoNullCount(after);
  }

  /** The function object `bootstrap` returns, with the three entries of its
      per-function metadata table (`None` while a list is undefined). */
  class FnRef {
    const target: string
    const propertyKey: string
    const rawMethod: RawMethod
    const result: Value
    var before: Option<Stack>
    var after: Option<Stack>
    var errorAdvice: ErrorAdvice

    /** Wrapping a raw method: the target's name, the property key, the raw
      method and an optional initial result (`undefined` when omitted) are
      kept; no metadata entry is set yet. */
    constructor (target: string, propertyKey: string, rawMethod: RawMethod, result: Value := Undefined)
      ensures this.target == target && this.propertyKey == propertyKey
      ensures this.rawMethod == rawMethod && this.result == result
      ensures before == None && after == None && errorAdvice == NoEntry
    {
      this.target, this.propertyKey, this.rawMethod, this.result := target, propertyKey, rawMethod, result;
      before, after, errorAdvice := None, None, NoEntry;
    }

    /** One call of the wrapper with caller `this` = `scope`: a fresh metadata
        record, the assembled stack, the executor, and `metadata.result` as it
        stands when the executor's construction returns. */
    method Invoke(scope: Scope, args: seq<Value>) returns (r: Value, metadata: Metadata, executor: CallStackIterator)
      requires before.Some? && after.Some?
      modifies scope
      ensures fresh(metadata) && fresh(executor)
      ensures metadata.scope == scope && metadata.target == target && metadata.propertyKey == propertyKey
      ensures metadata.rawMethod == rawMethod
      ensures executor.metadata == metadata && executor.errorAdvice == errorAdvice
      ensures executor.stack == AssembleStack(before.value, after.value)
      ensures executor.Valid() && executor.phase != Running
      ensures executor.View() == Start(executor.stack, rawMethod, args, result, old(scope.name))
      ensures r == metadata.result
      ensures r == WrapperReturn(before.value, after.value, rawMethod, result, args, old(scope.name))
    {
      metadata := new Metadata(scope, target, propertyKey, rawMethod, args, result);
      var stack := AssembleStack(before.value, after.value);
      executor := new CallStackIterator(metadata, stack, errorAdvice);
      r := metadata.result;
    }
  }

  /** `buildReflectionProperties(subject)`: empty before and after lists and a
      `null` error advice. */
  method BuildReflectionProperties(subject: FnRef)
    modifies subject
    ensures subject.before == Some([]) && subject.after == Some([]) && subject.errorAdvice == NullEntry
    ensures AssembleStack(subject.before.value, subject.after.value) == [None]
  {
    subject.before := Some([]);
    subject.after := Some([]);
    subject.errorAdvice := NullEntry;
  }

  /** What one wrapper call returns, as a function of the configuration. */
  function WrapperReturn(before: Stack, after: Stack, raw: RawMethod, result: Value, args: seq<Value>, name: Value): Value
  {
    Start(AssembleStack(before, after), raw, args, result, name).result
  }

  /** With the default configuration the wrapper is a plain pass-through: it
      returns what the raw method returns on the original args. */
  lemma DefaultWrapperIsPassThrough(raw: RawMethod, result: Value, args: seq<Value>, name: Value)
    ensures WrapperReturn([], [], raw, result, args, name) == raw(name, args).ret
  {
    assert AssembleStack([], []) == [None];
    PassThrough(raw, args, result, name);
  }

  /** However the deferred part of a call goes, the raw method runs at most
      once per call of a wrapper whose advice lists hold no `null`. */
  lemma RawMethodAtMostOnce(before: Stack, after: Stack, raw: RawMethod, result: Value, args: seq<Value>, name: Value, ops: seq<Op>)
    requires NullFree(before) && NullFree(after)
    ensures MainRuns(Exec(AssembleStack(before, after), raw, args, result, name, ops).trace) <= 1
  {
    var stack := AssembleStack(before, after);
    ExecKeepsInv(stack, raw, args, result, name, ops);
    MainRunsBounded(stack, Exec(stack, raw, args, result, name, ops));
    SentinelOnce(before, after);
  }

  /** When no before-advice stops or waits for a deferred `next()`,
      construction alone runs the raw method, exactly once. */
  lemma PlainBeforeAdvicesReachMain(before: Stack, after: Stack, raw: RawMethod, result: Value, args: seq<Value>, name: Value)
    requires NullFree(before) && NullFree(after)
    requires forall i :: 0 <= i < |before| ==> Proceeds(before[i])
    ensures MainRuns(Start(AssembleStack(before, after), raw, args, result, name).trace) == 1
  {
    var stack := AssembleStack(before, after);
    var init := Initial(args, result, name);
    forall i | 0 <= i < |before| + 1
      ensures Proceeds(stack[i])
    {
      if i < |before| {
        assert stack[i] == stack[..|before|][i];
      }
    }
    RunsPastProceeding(stack, raw, init, |before| + 1);
    RunFromKeepsInv(stack, raw, init);
    var t := Start(stack, raw, args, result, name);
    MainRunsBounded(stack, t);
    SentinelOnce(before, after);
    CountNullGrows(stack, |before| + 1, |t.trace|);
    assert stack[..|before| + 1] == before + [None];
    CountNullAppend(before, [None]);
    NoNullCount(before);
  }
}
