/** Python values as the converters see them (what `json` decoding produces, plus the tuples
    that `parse` returns), Python's truthiness and hashing, the exceptions the converters can
    raise, and the two ways a dict is read: strict `d[key]` and lenient `d.get(key)`. */
module Values {

  datatype Option<+T> = None | Some(value: T)

  /** The exceptions the conversion code can raise, without their messages. */
  datatype Error =
    | KeyError(key: string)   // `d[key]` on a dict without that key
    | TypeError               // subscripting, iterating, hashing or regex-matching a value of the wrong type
    | AttributeError          // calling a method the value's type lacks (`.get`, `.split`, `.groups` on None)

  datatype Result<+T> = Success(value: T) | Failure(error: Error) {
    predicate IsFailure() { Failure? }
    function PropagateFailure<U>(): Result<U> requires Failure? { Failure(error) }
    function Extract(): T requires Success? { value }
  }

  /** A Python value. JSON floats are not modelled. */
  datatype Value =
    | VNone
    | VBool(b: bool)
    | VInt(i: int)
    | VStr(s: string)
    | VList(items: seq<Value>)
    | VTuple(items: seq<Value>)
    | VDict(m: map<string, Value>)

  /** Python's `bool(v)`. */
  predicate Truthy(v: Value) {
    match v
    case VNone => false
    case VBool(b) => b
    case VInt(i) => i != 0
    case VStr(s) => s != []
    case VList(items) => items != []
    case VTuple(items) => items != []
    case VDict(m) => m != map[]
  }

  /** Dict keys up to Python's equality of hashable values (`True == 1`, `False == 0`). */
  datatype Key = KNone | KInt(i: int) | KStr(s: string) | KTuple(items: seq<Key>)

  /** The key `v` stands for in a dict, or None when `v` is unhashable (a list, a dict,
      or a tuple holding one). */
  function KeyOf(v: Value): (k: Option<Key>)
    ensures (v.VList? || v.VDict?) ==> k.None?
    ensures (v.VNone? || v.VBool? || v.VInt? || v.VStr?) ==> k.Some?
  {
    match v
    case VNone => Some(KNone)
    case VBool(b) => Some(KInt(if b then 1 else 0))
    case VInt(i) => Some(KInt(i))
    case VStr(s) => Some(KStr(s))
    case VList(_) => None
    case VDict(_) => None
    case VTuple(items) =>
      if forall i :: 0 <= i < |items| ==> KeyOf(items[i]).Some? then
        Some(KTuple(seq(|items|, i requires 0 <= i < |items| => KeyOf(items[i]).value)))
      else None
  }

  /** Python's `==`, stated independently of hashing: None equals only None; bools and ints
      compare as numbers (`True == 1`); strings compare by contents; tuples and lists compare
      element by element, and a tuple never equals a list; dicts compare key by key. */
  predicate PyEq(x: Value, y: Value)
    decreases x
  {
    match (x, y)
    case (VNone, VNone) => true
    case (VStr(a), VStr(b)) => a == b
    case (VTuple(xs), VTuple(ys)) => |xs| == |ys| && forall i :: 0 <= i < |xs| ==> PyEq(xs[i], ys[i])
    case (VList(xs), VList(ys)) => |xs| == |ys| && forall i :: 0 <= i < |xs| ==> PyEq(xs[i], ys[i])
    case (VDict(a), VDict(b)) => a.Keys == b.Keys && forall k :: k in a ==> PyEq(a[k], b[k])
    case _ => IsNumber(x) && IsNumber(y) && Number(x) == Number(y)
  }

  predicate IsNumber(v: Value) { v.VBool? || v.VInt? }

  /** The number a bool or an int stands for. */
  function Number(v: Value): int
    requires IsNumber(v)
  {
    if v.VBool? then (if v.b then 1 else 0) else v.i
  }

  /** Two hashable values share a dict entry exactly when Python's `==` says they are equal:
      `True` and `1` find the same entry, two strings only when they are the same string. */
  lemma {:induction false} KeyOfIsEquality(x: Value, y: Value)
    requires KeyOf(x).Some? && KeyOf(y).Some?
    ensures KeyOf(x) == KeyOf(y) <==> PyEq(x, y)
    decreases x
  {
    if x.VTuple? && y.VTuple? {
      var xs, ys := x.items, y.items;
      var kx := seq(|xs|, i requires 0 <= i < |xs| => KeyOf(xs[i]).value);
      var ky := seq(|ys|, i requires 0 <= i < |ys| => KeyOf(ys[i]).value);
      assert KeyOf(x) == Some(KTuple(kx));
      assert KeyOf(y) == Some(KTuple(ky));
      forall i | 0 <= i < |xs| && i < |ys|
        ensures kx[i] == ky[i] <==> PyEq(xs[i], ys[i])
      {
        KeyOfIsEquality(xs[i], ys[i]);
      }
      if PyEq(x, y) {
        assert kx == ky;
      }
    }
  }

  /** Examples: `True` and `1` are the same key, `"1"` and `1` are not. */
  lemma KeyExamples()
    ensures KeyOf(VBool(true)) == KeyOf(VInt(1))
    ensures KeyOf(VBool(false)) == KeyOf(VInt(0))
    ensures KeyOf(VStr("1")) != KeyOf(VInt(1))
    ensures KeyOf(VTuple([VBool(true), VStr("a")])) == KeyOf(VTuple([VInt(1), VStr("a")]))
  {
    KeyOfIsEquality(VTuple([VBool(true), VStr("a")]), VTuple([VInt(1), VStr("a")]));
  }

  /** `v[key]` for a string key: only a dict accepts it. */
  function Subscript(v: Value, key: string): Result<Value> {
    match v
    case VDict(m) => if key in m then Success(m[key]) else Failure(KeyError(key))
    case _ => Failure(TypeError)
  }

  /** `d.get(key)` on a dict: the value, or None when the key is missing. */
  function Get(m: map<string, Value>, key: string): Value {
    if key in m then m[key] else VNone
  }

  /** `v.get(key)` on any value: only a dict has the method. */
  function DictGet(v: Value, key: string): Result<Value> {
    match v
    case VDict(m) => Success(Get(m, key))
    case _ => Failure(AttributeError)
  }

  /** Python's `v and f(v)`: a falsy `v` is the value itself, otherwise `f` is applied. */
  function And(v: Value, f: Value -> Result<Value>): Result<Value> {
    if Truthy(v) then f(v) else Success(v)
  }

  /** Python's `v or f(v)`: a truthy `v` is the value itself, otherwise `f` is applied. */
  function Or(v: Value, f: Value -> Result<Value>): Result<Value> {
    if Truthy(v) then Success(v) else f(v)
  }

  /** The one-character strings a string iterates over. */
  function Chars(s: string): (r: seq<Value>)
    ensures |r| == |s|
    ensures forall i :: 0 <= i < |s| ==> r[i] == VStr([s[i]])
  {
    seq(|s|, i requires 0 <= i < |s| => VStr([s[i]]))
  }

  /** `xs` lists every key of `m` once, each as a string value. */
  ghost predicate KeyListing(xs: seq<Value>, m: map<string, Value>) {
    && |xs| == |m.Keys|
    && (forall i :: 0 <= i < |xs| ==> xs[i].VStr? && xs[i].s in m)
    && (forall i, j :: 0 <= i < j < |xs| ==> xs[i] != xs[j])
  }

  /** `xs` is what `for x in v` visits: a list's or tuple's items, a string's characters,
      a dict's keys (in an insertion order the model does not track). */
  ghost predicate Iterates(v: Value, xs: seq<Value>) {
    match v
    case VList(items) => xs == items
    case VTuple(items) => xs == items
    case VStr(s) => xs == Chars(s)
    case VDict(m) => KeyListing(xs, m)
    case _ => false
  }

  /** `for x in v`: None, booleans and integers are not iterable. */
  method Iterate(v: Value) returns (r: Result<seq<Value>>)
    ensures r.Success? <==> !(v.VNone? || v.VBool? || v.VInt?)
    ensures r.Success? ==> Iterates(v, r.value)
    ensures r.Failure? ==> r.error == TypeError
  {
    match v {
      case VList(items) => r := Success(items);
      case VTuple(items) => r := Success(items);
      case VStr(s) => r := Success(Chars(s));
      case VDict(m) =>
        var keys := m.Keys;
        var out: seq<Value> := [];
        while keys != {}
          invariant keys <= m.Keys
          invariant forall i :: 0 <= i < |out| ==> out[i].VStr? && out[i].s in m && out[i].s !in keys
          invariant forall i, j :: 0 <= i < j < |out| ==> out[i] != out[j]
          invariant |out| + |keys| == |m.Keys|
          decreases keys
        {
          var k :| k in keys;
          out := out + [VStr(k)];
          keys := keys - {k};
        }
        r := Success(out);
      case _ => r := Failure(TypeError);
    }
  }

  /** The list `[f(x) for x in xs]`, or the exception of the first element `f` refuses. */
  function Traverse<A, B>(f: A -> Result<B>, xs: seq<A>): (r: Result<seq<B>>)
    ensures r.Success? <==> forall i :: 0 <= i < |xs| ==> f(xs[i]).Success?
    ensures r.Success? ==> |r.value| == |xs| && forall i :: 0 <= i < |xs| ==> r.value[i] == f(xs[i]).value
  {
    if xs == [] then Success([])
    else
      match f(xs[0])
      case Failure(e) => Failure(e)
      case Success(y) =>
        match Traverse(f, xs[1..])
        case Failure(e) => Failure(e)
        case Success(ys) => Success([y] + ys)
  }

  /** The exception of a comprehension is the one raised by its first failing element. */
  lemma {:induction false} TraverseFirstFailure<A, B>(f: A -> Result<B>, xs: seq<A>, k: nat)
    requires k < |xs|
    requires forall j :: 0 <= j < k ==> f(xs[j]).Success?
    requires f(xs[k]).Failure?
    ensures Traverse(f, xs) == Failure(f(xs[k]).error)
  {
    if k > 0 {
      TraverseFirstFailure(f, xs[1..], k - 1);
    }
  }

  /** When `f` raises the same exception on every element, the comprehension succeeds only
      on an empty iteration. */
  lemma TraverseUniformFailure<A, B>(f: A -> Result<B>, xs: seq<A>, e: Error)
    requires forall i :: 0 <= i < |xs| ==> f(xs[i]) == Failure(e)
    ensures Traverse(f, xs) == if xs == [] then Success([]) else Failure(e)
  {
    if xs != [] {
      TraverseFirstFailure(f, xs, 0);
    }
  }

  /** The loop a list comprehension runs. */
  method Collect<A, B>(f: A -> Result<B>, xs: seq<A>) returns (r: Result<seq<B>>)
    ensures r == Traverse(f, xs)
  {
    var acc: seq<B> := [];
    for i := 0 to |xs|
      invariant |acc| == i
      invariant forall j :: 0 <= j < i ==> f(xs[j]).Success? && acc[j] == f(xs[j]).value
    {
      var y := f(xs[i]);
      if y.Failure? {
        TraverseFirstFailure(f, xs, i);
        return Failure(y.error);
      }
      acc := acc + [y.value];
    }
    r := Success(acc);
    assert r.value == Traverse(f, xs).value;
  }
}
