/**
 The JSON values the script reads from the API and writes to disk, together with
 the pieces of JavaScript semantics its expressions rely on: truthiness and `||`,
 property reads that throw on `undefined`/`null`, conversion to string inside a
 template literal, `String.prototype.includes` and `Object.entries`.
 */
module Json {
  import opened Opt
  import opened Dict

  /** Numbers are integers here (see README, "Left out"). `Undefined` is what a
      missing property reads as. */
  datatype JsonValue =
    | Undefined
    | Null
    | Bool(b: bool)
    | Num(n: int)
    | Str(s: string)
    | Arr(elems: seq<JsonValue>)
    | Obj(fields: Entries<JsonValue>)

  /** JavaScript truthiness: `undefined`, `null`, `false`, `0` and `''` are falsy;
      every array and object, even an empty one, is truthy. */
  predicate Truthy(v: JsonValue) {
    match v
    case Undefined => false
    case Null => false
    case Bool(b) => b
    case Num(n) => n != 0
    case Str(s) => s != ""
    case Arr(_) => true
    case Obj(_) => true
  }

  /** `a || b` */
  function Or(a: JsonValue, b: JsonValue): JsonValue {
    if Truthy(a) then a else b
  }

  predicate Nullish(v: JsonValue) {
    v.Undefined? || v.Null?
  }

  /** `v.k` on a value that is not `undefined` or `null`, for the keys the script
      reads: a key an object lacks reads as `undefined`, and so does any of those keys
      on a primitive or an array (none of them is `length`, an index or a prototype
      member). */
  function Member(v: JsonValue, k: string): JsonValue
    requires !Nullish(v)
  {
    match v
    case Obj(fs) => (match Lookup(fs, k) case Some(x) => x case None => Undefined)
    case _ => Undefined
  }

  /** `v[i]` on a value that is not `undefined` or `null`. */
  function Element(v: JsonValue, i: nat): JsonValue
    requires !Nullish(v)
  {
    match v
    case Arr(xs) => if i < |xs| then xs[i] else Undefined
    case Str(s) => if i < |s| then Str([s[i]]) else Undefined
    case Obj(fs) => (match Lookup(fs, NatStr(i)) case Some(x) => x case None => Undefined)
    case _ => Undefined
  }

  function Digit(d: nat): char
    requires d < 10
  {
    "0123456789"[d]
  }

  /** The decimal numeral of `n`, as `String(n)` writes it. */
  function NatStr(n: nat): (s: string)
    ensures |s| >= 1
    ensures n < 10 <==> |s| == 1
    ensures s[|s| - 1] == Digit(n % 10)
  {
    if n < 10 then [Digit(n)] else NatStr(n / 10) + [Digit(n % 10)]
  }

  function IntStr(n: int): string {
    if n < 0 then "-" + NatStr(-n) else NatStr(n)
  }

  /** Distinct indices have distinct numerals, so the keys `Object.entries` gives an
      array are distinct. */
  lemma {:induction false} NatStrInjective(a: nat, b: nat)
    requires NatStr(a) == NatStr(b)
    ensures a == b
  {
    var s := NatStr(a);
    assert Digit(a % 10) == Digit(b % 10);
    if a >= 10 {
      assert NatStr(a / 10) == s[..|s| - 1] == NatStr(b / 10);
      NatStrInjective(a / 10, b / 10);
    }
  }

  function Join(parts: seq<string>, sep: string): string {
    if parts == [] then ""
    else if |parts| == 1 then parts[0]
    else parts[0] + sep + Join(parts[1..], sep)
  }

  /** `${v}` inside a template literal. Array elements that are `undefined` or
      `null` print as empty strings, as `Array.prototype.join` does. */
  function JsString(v: JsonValue): string {
    match v
    case Undefined => "undefined"
    case Null => "null"
    case Bool(b) => if b then "true" else "false"
    case Num(n) => IntStr(n)
    case Str(s) => s
    case Arr(xs) =>
      Join(seq(|xs|, i requires 0 <= i < |xs| => if Nullish(xs[i]) then "" else JsString(xs[i])), ",")
    case Obj(_) => "[object Object]"
  }

  /** `x.includes(sub)` on strings: `sub` occurs in `x` at some position. */
  predicate Contains(x: string, sub: string) {
    sub <= x || (x != [] && Contains(x[1..], sub))
  }

  /** `sub` equals the slice of `x` that starts at `i`. */
  predicate OccursAt(x: string, sub: string, i: int) {
    0 <= i <= |x| - |sub| && x[i..i + |sub|] == sub
  }

  /** `Contains` agrees with the definition of a substring: `sub` occurs in `x` at
      some position. */
  lemma {:induction false} ContainsIsSubstring(x: string, sub: string)
    ensures Contains(x, sub) <==> exists i :: OccursAt(x, sub, i)
  {
    if sub <= x {
      assert x[0..|sub|] == sub;
      assert OccursAt(x, sub, 0);
    } else if x == [] {
    } else {
      ContainsIsSubstring(x[1..], sub);
      if Contains(x[1..], sub) {
        var i :| OccursAt(x[1..], sub, i);
        assert x[i + 1..i + 1 + |sub|] == sub;
        assert OccursAt(x, sub, i + 1);
      }
      if exists i :: OccursAt(x, sub, i) {
        var i :| OccursAt(x, sub, i);
        assert i > 0;
        assert x[1..][i - 1..i - 1 + |sub|] == sub;
        assert OccursAt(x[1..], sub, i - 1);
      }
    }
  }

  /** `v.includes(needle)`: substring search on a string, an element search on an
      array; any other value has no `includes` method, so the call throws. */
  function Includes(v: JsonValue, needle: string): (r: Option<bool>)
    ensures r.Some? <==> v.Str? || v.Arr?
  {
    match v
    case Str(s) => Some(Contains(s, needle))
    case Arr(xs) => Some(Str(needle) in xs)
    case _ => None
  }

  /** `Object.entries(v)` of an object or an array (an array's keys are its indices
      written in decimal). */
  function ObjectEntries(v: JsonValue): (es: Entries<JsonValue>)
    requires v.Obj? || v.Arr?
  {
    match v
    case Obj(fs) => fs
    case Arr(xs) => seq(|xs|, i requires 0 <= i < |xs| => (NatStr(i), xs[i]))
  }

  /** The entries of an array have distinct keys; so do those of any object that
      itself has distinct keys. */
  lemma ObjectEntriesDistinct(v: JsonValue)
    requires v.Arr? || (v.Obj? && DistinctKeys(v.fields))
    ensures DistinctKeys(ObjectEntries(v))
  {
    if v.Arr? {
      var es := ObjectEntries(v);
      forall i, j | 0 <= i < j < |es| ensures es[i].0 != es[j].0 {
        if es[i].0 == es[j].0 {
          NatStrInjective(i, j);
        }
      }
    }
  }
}
