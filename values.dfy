/** JavaScript values as far as the dispatch core inspects them, and the
    read/write behaviour of JavaScript arrays. */
module Values {

  datatype Option<+T> = None | Some(value: T)

  /** A JavaScript value. Numbers are modelled as integers (NaN and
      fractions play no role in the core). */
  datatype Value =
    | Undefined
    | Null
    | Bool(b: bool)
    | Num(n: int)
    | Str(s: string)
    | Arr(items: seq<Value>)
    | Obj(fields: map<string, Value>)

  /** The object literal `{}`. */
  const EmptyObject: Value := Obj(map[])

  /** JavaScript truthiness, the test behind `if (!x)`. */
  predicate Truthy(v: Value) {
    match v
    case Undefined => false
    case Null => false
    case Bool(b) => b
    case Num(n) => n != 0
    case Str(s) => s != ""
    case Arr(_) => true
    case Obj(_) => true
  }

  /** `a[i]` on a JavaScript array: an index past the end reads as undefined. */
  function At(a: seq<Value>, i: nat): Value {
    if i < |a| then a[i] else Undefined
  }

  /** The array `a` after `a[i] = v`: an array shorter than i + 1 grows to
      length i + 1, and the gap it opens reads as undefined. */
  function Store(a: seq<Value>, i: nat, v: Value): (r: seq<Value>)
    ensures |r| == if i < |a| then |a| else i + 1
  {
    if i < |a| then a[i := v] else a + Holes(i - |a|) + [v]
  }

  /** n array slots that have never been written. */
  function Holes(n: nat): (r: seq<Value>)
    ensures |r| == n
    ensures forall k :: 0 <= k < n ==> r[k] == Undefined
  {
    if n == 0 then [] else Holes(n - 1) + [Undefined]
  }

  /** Read-after-write: index i reads v, every other index reads what it read before. */
  lemma StoreAt(a: seq<Value>, i: nat, v: Value, j: nat)
    ensures At(Store(a, i, v), j) == if j == i then v else At(a, j)
  {
  }
}
