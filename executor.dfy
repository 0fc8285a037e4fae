/** The executor as a live object: it walks the stack by index, mutating the
    shared metadata in place, and is driven later by `next()` and `stop()`. */
module Executor {
  import opened Values
  import opened Advices
  import opened Chain

  /** The `this` a wrapped method runs against; only `name` is observed. */
  class Scope {
    var name: Value

    constructor (name: Value)
      ensures this.name == name
    {
      this.name := name;
    }
  }

  /** The per-call metadata record shared by every step of one call. */
  class Metadata {
    const scope: Scope
    const target: string
    const propertyKey: string
    const rawMethod: RawMethod
    var args: seq<Value>
    var result: Value

    constructor (scope: Scope, target: string, propertyKey: string, rawMethod: RawMethod, args: seq<Value>, result: Value)
      ensures this.scope == scope && this.target == target && this.propertyKey == propertyKey
      ensures this.rawMethod == rawMethod && this.args == args && this.result == result
    {
      this.scope, this.target, this.propertyKey := scope, target, propertyKey;
      this.rawMethod, this.args, this.result := rawMethod, args, result;
    }

    /** An edit made by an advice or a deferred callback holding the metadata. */
    method Edit(e: MetaEdit)
      modifies this
      ensures args == EditArgs(old(args), e) && result == EditResult(old(result), e)
    {
      match e
      case PopArg => if |args| > 0 { args := args[..|args| - 1]; }
      case PushArg(v) => args := args + [v];
      case SetResult(v) => result := v;
    }
  }

  class CallStackIterator {
    const metadata: Metadata
    const stack: Stack
    const errorAdvice: ErrorAdvice
    var index: nat
    var phase: Phase
    ghost var trace: seq<Event>

    /** The executor's state together with the metadata it shares. */
    ghost function View(): State
      reads this, metadata, metadata.scope
    {
      State(phase, index, metadata.args, metadata.result, metadata.scope.name, trace)
    }

    ghost predicate Valid()
      reads this, metadata, metadata.scope
    {
      Inv(stack, View())
    }

    /** Construction starts the chain and runs it until it pauses or ends. */
    constructor (metadata: Metadata, stack: Stack, errorAdvice: ErrorAdvice)
      modifies metadata, metadata.scope
      ensures this.metadata == metadata && this.stack == stack && this.errorAdvice == errorAdvice
      ensures Valid() && phase != Running
      ensures View() == Start(stack, metadata.rawMethod, old(metadata.args), old(metadata.result), old(metadata.scope.name))
    {
      this.metadata, this.stack, this.errorAdvice := metadata, stack, errorAdvice;
      index, phase, trace := 0, Running, [];
      new;
      Drive();
    }

    /** Applies the edits of an advice body to the shared metadata. */
    method ApplyBody(es: seq<MetaEdit>)
      modifies metadata
      ensures View() == ApplyEdits(old(View()), es)
    {
      var i := 0;
      while i < |es|
        invariant 0 <= i <= |es|
        invariant ApplyEdits(View(), es[i..]) == ApplyEdits(old(View()), es)
      {
        assert es[i..][1..] == es[i + 1..];
        metadata.Edit(es[i]);
        i := i + 1;
      }
    }

    /** Executes the current entry. */
    method StepOnce()
      requires Valid() && phase == Running
      modifies this, metadata, metadata.scope
      ensures View() == Step(stack, metadata.rawMethod, old(View()))
      ensures Valid()
    {
      StepKeepsInv(stack, metadata.rawMethod, View());
      if index == |stack| {
        phase := Done;
      } else if stack[index].None? {
        var eff := metadata.rawMethod(metadata.scope.name, metadata.args);
        trace := trace + [MainRan(index, metadata.args, eff.invoked)];
        metadata.result := eff.ret;
        metadata.scope.name := eff.name;
        index := index + 1;
      } else {
        var e := stack[index].value;
        trace := trace + [AdviceRan(index, Inject(e.advice, e.args))];
        ApplyBody(e.advice.body.edits);
        if e.advice.body.ending == CallsStop {
          phase := Stopped;
        } else if e.advice.selfDriving && e.advice.body.ending == Returns {
          phase := Paused;
        } else {
          index := index + 1;
        }
      }
    }

    /** Runs entries until the chain pauses or ends. */
    method Drive()
      requires Valid()
      modifies this, metadata, metadata.scope
      ensures Valid() && phase != Running
      ensures View() == RunFrom(stack, metadata.rawMethod, old(View()))
    {
      while phase == Running
        invariant Valid()
        invariant RunFrom(stack, metadata.rawMethod, View()) == RunFrom(stack, metadata.rawMethod, old(View()))
        decreases |stack| - index, if phase == Running then 1 else 0
      {
        StepOnce();
      }
    }

    /** `this.next()`: resumes a paused chain at the following entry. */
    method Resume()
      requires Valid()
      modifies this, metadata, metadata.scope
      ensures Valid()
      ensures View() == Chain.Resume(stack, metadata.rawMethod, old(View()))
    {
      if phase == Paused {
        phase, index := Running, index + 1;
        Drive();
      }
    }

    /** `this.stop()`: a paused chain stops; nothing else of it runs. */
    method Halt()
      requires Valid()
      modifies this
      ensures Valid()
      ensures View() == Chain.Halt(old(View()))
    {
      if phase == Paused {
        phase := Stopped;
      }
    }
  }
}
