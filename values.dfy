/** JavaScript values as far as the advice chain observes them. */
module Values {

  datatype Option<+T> = None | Some(value: T)

  /** A call argument, a return value, or a field value. `Num` stands for a
      JavaScript number as an unbounded integer (no floating point). `Fn`
      stands for a function value (a callback) by an identity of its own. */
  datatype Value = Undefined | Str(s: string) | Num(n: int) | Fn(id: nat)

  /** Indexing a JavaScript array: past the end reads `undefined`. */
  function ArgAt(args: seq<Value>, i: nat): (v: Value)
    ensures i < |args| ==> v == args[i]
    ensures i >= |args| ==> v == Undefined
  {
    if i < |args| then args[i] else Undefined
  }
}
