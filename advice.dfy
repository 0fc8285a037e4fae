/** Stack entries and the parameters an advice is called with. */
module Advices {
  import opened Values

  /** What an advice (or a deferred callback it scheduled) does to the shared
      metadata: `args.pop()`, `args.push(v)`, or an assignment to `result`.
      These three are the only edits modelled. */
  datatype MetaEdit = PopArg | PushArg(v: Value) | SetResult(v: Value)

  /** `args` after an edit; popping an empty array changes nothing. */
  function EditArgs(args: seq<Value>, e: MetaEdit): seq<Value>
  {
    match e
    case PopArg => if |args| == 0 then args else args[..|args| - 1]
    case PushArg(v) => args + [v]
    case SetResult(_) => args
  }

  /** `result` after an edit. */
  function EditResult(result: Value, e: MetaEdit): Value
  {
    if e.SetResult? then e.v else result
  }

  /** How the synchronous part of an advice ends: by returning, by calling
      `this.next()` as its last statement (the rest of the chain then runs
      inside that call, before the advice returns), or by calling
      `this.stop()`. */
  datatype Ending = Returns | CallsNext | CallsStop

  /** The synchronous part of an advice: its edits to the metadata, in order,
      and how it ends. */
  datatype AdviceBody = AdviceBody(edits: seq<MetaEdit>, ending: Ending)

  /** An advice function with its two annotations: `$$meta` (the parameter
      slot that receives the metadata) and `$$params` (slot i receives entry
      argument `params[i]`; `None` is an `undefined` hole). `selfDriving`
      says whether the executor waits for the advice to call `next()`. */
  datatype Advice = Advice(meta: Option<nat>, params: seq<Option<nat>>, selfDriving: bool, body: AdviceBody)

  /** The error-advice entry of a function's metadata table: absent
      (`undefined`), explicitly `null`, or an advice. */
  datatype ErrorAdvice = NoEntry | NullEntry | Handler(advice: Advice)

  /** One element of the call stack: an advice with its static arguments. */
  datatype StackEntry = StackEntry(advice: Advice, args: seq<Value>)

  /** A parameter as the advice receives it: the metadata object itself, or
      an ordinary value (`undefined` for slots nothing fills). */
  datatype Param = MetaParam | Arg(v: Value)

  function Max(a: nat, b: nat): nat { if a < b then b else a }

  /** The number of parameter slots the annotations fill. */
  function SlotCount(adv: Advice): nat
  {
    Max(if adv.meta.Some? then adv.meta.value + 1 else 0, |adv.params|)
  }

  /** The parameter for one slot: the metadata at `$$meta`, otherwise the
      entry argument `$$params` names for it, otherwise `undefined`. */
  function SlotValue(adv: Advice, entryArgs: seq<Value>, j: nat): Param
  {
    if adv.meta == Some(j) then MetaParam
    else if j < |adv.params| && adv.params[j].Some? then Arg(ArgAt(entryArgs, adv.params[j].value))
    else Arg(Undefined)
  }

  /** The argument list an advice is applied to. */
  function Inject(adv: Advice, entryArgs: seq<Value>): (ps: seq<Param>)
    ensures |ps| == SlotCount(adv)
    ensures MetaParam in ps <==> adv.meta.Some?
    ensures adv.meta.Some? ==> adv.meta.value < |ps| && ps[adv.meta.value] == MetaParam
    ensures forall j :: 0 <= j < |ps| && ps[j] == MetaParam ==> adv.meta == Some(j)
    ensures forall j :: 0 <= j < |ps| && j < |adv.params| && adv.params[j].Some? && adv.meta != Some(j) ==>
              ps[j] == Arg(ArgAt(entryArgs, adv.params[j].value))
    ensures forall j :: 0 <= j < |ps| && adv.meta != Some(j) && (j >= |adv.params| || adv.params[j].None?) ==>
              ps[j] == Arg(Undefined)
  {
    var ps := seq(SlotCount(adv), j requires 0 <= j => SlotValue(adv, entryArgs, j));
    assert adv.meta.Some? ==> adv.meta.value < |ps| && ps[adv.meta.value] == MetaParam;
    ps
  }
}
