/**
 * The JavaScript values the bot stores and passes around: parsed JSON bodies
 * of upstream replies, the free-form fields of the user record, the command
 * object the language model emits.  An object is a list of fields in insertion
 * order (the order `Object.keys` reports).  Numbers are integers; the non-finite
 * results of the bot's own arithmetic are the separate type `Num`.
 */
module JsValue {
  import opened Wrappers
  import opened Text

  datatype Json =
    | JUndefined
    | JNull
    | JBool(b: bool)
    | JNum(n: int)
    | JStr(s: string)
    | JArr(items: seq<Json>)
    | JObj(fields: seq<Field>)

  datatype Field = Field(key: string, value: Json)

  /** A JavaScript number as it comes out of `*`, `/`, `Math.ceil` and `Number()`. */
  datatype Num = Finite(v: int) | NaN | Infinity(positive: bool)

  /** `Boolean(j)`. */
  predicate Truthy(j: Json) {
    match j
    case JUndefined => false
    case JNull => false
    case JBool(b) => b
    case JNum(n) => n != 0
    case JStr(s) => s != ""
    case JArr(_) => true
    case JObj(_) => true
  }

  predicate Nullish(j: Json) {
    j == JUndefined || j == JNull
  }

  /** `typeof j === "object" && j !== null`. */
  predicate IsObjectLike(j: Json) {
    j.JArr? || j.JObj?
  }

  // --- sizes, the termination measure of every recursion over values ---

  function Size(j: Json): nat {
    match j
    case JArr(xs) => 1 + ItemsSize(xs)
    case JObj(fs) => 1 + FieldsSize(fs)
    case _ => 1
  }

  function ItemsSize(xs: seq<Json>): nat {
    if xs == [] then 0 else Size(xs[0]) + ItemsSize(xs[1..])
  }

  function FieldsSize(fs: seq<Field>): nat {
    if fs == [] then 0 else Size(fs[0].value) + FieldsSize(fs[1..])
  }

  // --- objects ---

  /** `Object.keys` of an object: its keys in insertion order. */
  function KeysOf(fs: seq<Field>): (ks: seq<string>)
    ensures |ks| == |fs|
    ensures forall i :: 0 <= i < |fs| ==> ks[i] == fs[i].key
  {
    if fs == [] then [] else [fs[0].key] + KeysOf(fs[1..])
  }

  /** `obj[k]` on an object: the value of the field named `k`, `undefined` when there is none. */
  function Lookup(fs: seq<Field>, k: string): (r: Json)
    ensures k !in KeysOf(fs) ==> r == JUndefined
    ensures k in KeysOf(fs) ==> Size(r) <= FieldsSize(fs)
  {
    if fs == [] then JUndefined
    else if fs[0].key == k then fs[0].value
    else
      assert k in KeysOf(fs) ==> k in KeysOf(fs[1..]);
      Lookup(fs[1..], k)
  }

  /** The value found is the one of the first field with that key. */
  lemma LookupFirst(fs: seq<Field>, k: string)
    requires k in KeysOf(fs)
    ensures exists i :: 0 <= i < |fs| && fs[i].key == k && Lookup(fs, k) == fs[i].value
                && forall j :: 0 <= j < i ==> fs[j].key != k
  {
    var i := LookupIndex(fs, k);
  }

  /** The index of the first field named `k`. */
  lemma {:induction false} LookupIndex(fs: seq<Field>, k: string) returns (i: nat)
    requires k in KeysOf(fs)
    ensures i < |fs| && fs[i].key == k && Lookup(fs, k) == fs[i].value
    ensures forall j :: 0 <= j < i ==> fs[j].key != k
  {
    if fs[0].key == k {
      return 0;
    }
    assert KeysOf(fs) == [fs[0].key] + KeysOf(fs[1..]);
    var rest := LookupIndex(fs[1..], k);
    i := rest + 1;
    forall j | 0 <= j < i ensures fs[j].key != k {
      if j > 0 {
        assert fs[j] == fs[1..][j - 1];
      }
    }
  }

  /** `j.key` (or `j?.key`) for values that are not `null`/`undefined`: anything but an object has no own fields here. */
  function Get(j: Json, key: string): Json {
    if j.JObj? then Lookup(j.fields, key) else JUndefined
  }

  /** The fields of `{...obj, k: v}`: the field named `k` has the new value, every other field keeps its value. */
  function SetField(fs: seq<Field>, k: string, v: Json): (r: seq<Field>)
    ensures Lookup(r, k) == v
    ensures forall k' :: k' != k ==> Lookup(r, k') == Lookup(fs, k')
  {
    if fs == [] then [Field(k, v)]
    else if fs[0].key == k then [Field(k, v)] + fs[1..]
    else
      var t := SetField(fs[1..], k, v);
      assert ([fs[0]] + t)[1..] == t;
      [fs[0]] + t
  }

  /** An existing key keeps its place, a new key goes last. */
  lemma {:induction false} SetFieldKeys(fs: seq<Field>, k: string, v: Json)
    ensures k in KeysOf(fs) ==> KeysOf(SetField(fs, k, v)) == KeysOf(fs)
    ensures k !in KeysOf(fs) ==> KeysOf(SetField(fs, k, v)) == KeysOf(fs) + [k]
  {
    if fs != [] && fs[0].key != k {
      var t := SetField(fs[1..], k, v);
      SetFieldKeys(fs[1..], k, v);
      assert ([fs[0]] + t)[1..] == t;
      assert KeysOf([fs[0]] + t) == [fs[0].key] + KeysOf(t);
      assert KeysOf(fs) == [fs[0].key] + KeysOf(fs[1..]);
      assert k in KeysOf(fs) <==> k in KeysOf(fs[1..]);
    }
  }

  function With(j: Json, k: string, v: Json): (r: Json)
    ensures r.JObj? && Get(r, k) == v
    ensures forall k' :: k' != k ==> Get(r, k') == Get(j, k')
  {
    JObj(SetField(if j.JObj? then j.fields else [], k, v))
  }

  // --- conversions ---

  /** `String(j)`, which is also what a template literal `${j}` produces. */
  function ToStr(j: Json): string {
    match j
    case JUndefined => "undefined"
    case JNull => "null"
    case JBool(b) => if b then "true" else "false"
    case JNum(n) => IntToString(n)
    case JStr(s) => s
    case JArr(xs) => Join(ElementStrings(xs), ",")
    case JObj(_) => "[object Object]"
  }

  /** `Array.prototype.join` renders `null` and `undefined` elements as empty strings. */
  function ElementStrings(xs: seq<Json>): (r: seq<string>)
    ensures |r| == |xs|
  {
    if xs == [] then [] else [if Nullish(xs[0]) then "" else ToStr(xs[0])] + ElementStrings(xs[1..])
  }

  function NumToString(n: Num): string {
    match n
    case Finite(v) => IntToString(v)
    case NaN => "NaN"
    case Infinity(pos) => if pos then "Infinity" else "-Infinity"
  }

  /** `Number(s)` for a string: blank is 0, an optionally signed run of decimal digits is its value, "Infinity" is infinite; every other form is NaN. */
  function StrToNumber(s: string): Num {
    var t := Trim(s);
    var neg := t != [] && t[0] == '-';
    var u := if t != [] && (t[0] == '-' || t[0] == '+') then t[1..] else t;
    if t == [] then Finite(0)
    else if u == "Infinity" then Infinity(!neg)
    else if u != [] && DigitPrefix(u) == |u| then
      Finite(if neg then -(DigitsValue(u) as int) else DigitsValue(u))
    else NaN
  }

  /** `Number(j)`. */
  function ToNumber(j: Json): Num {
    match j
    case JUndefined => NaN
    case JNull => Finite(0)
    case JBool(b) => Finite(if b then 1 else 0)
    case JNum(n) => Finite(n)
    case JStr(s) => StrToNumber(s)
    case JArr(_) => StrToNumber(ToStr(j))
    case JObj(_) => NaN
  }

  /** `Number(String(n))` is `n`: a rendered integer reads back as itself. */
  lemma NumberOfRenderedInt(n: int)
    ensures StrToNumber(IntToString(n)) == Finite(n)
  {
    var m: nat := if n < 0 then -n else n;
    var d := NatToString(m);
    var s := IntToString(n);
    assert s == (if n < 0 then "-" else "") + d;
    assert !IsJsSpace(s[0]) && !IsJsSpace(s[|s| - 1]);
    assert TrimStart(s) == s;
    assert TrimEnd(s) == s;
    assert Trim(s) == s;
    var u := if n < 0 then s[1..] else s;
    assert u == d;
    assert IsDigit(u[0]);
    assert u != "Infinity";
    DigitPrefixAll(d);
    DigitsValueOfNat(m);
    assert if n < 0 then -(DigitsValue(u) as int) == n else DigitsValue(u) == n;
    var neg := s[0] == '-';
    assert neg <==> n < 0;
    assert u == (if s[0] == '-' || s[0] == '+' then s[1..] else s);
    assert DigitPrefix(u) == |u|;
  }

  /** `a * b` on JavaScript numbers, for the operands the bot multiplies. */
  function Mul(a: Num, b: Num): (r: Num)
    ensures a.Finite? && b.Finite? ==> r == Finite(a.v * b.v)
    ensures a.NaN? || b.NaN? ==> r.NaN?
  {
    match (a, b)
    case (Finite(x), Finite(y)) => Finite(x * y)
    case (NaN, _) => NaN
    case (_, NaN) => NaN
    case (Infinity(p), Finite(y)) => if y == 0 then NaN else Infinity(p == (y > 0))
    case (Finite(x), Infinity(p)) => if x == 0 then NaN else Infinity(p == (x > 0))
    case (Infinity(p), Infinity(q)) => Infinity(p == q)
  }

  /** `===` between a stored value and a number computed by the bot; `NaN` equals nothing. */
  predicate StrictEqualsNum(j: Json, n: Num) {
    j.JNum? && n == Finite(j.n)
  }
}
