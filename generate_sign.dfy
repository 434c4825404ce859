/**
 * The older, flat request signature (scripts/generateSign.js): sorted keys,
 * `key=${params[key]}` for each, joined with '', the private key appended,
 * MD5 of the result.  Nested values are not flattened: an object value is
 * written as "[object Object]".
 */
module GenerateSign {
  import opened Wrappers
  import opened JsValue
  import opened KeyOrder
  import opened Text
  import opened GenerateSign2

  /** The characters of a string as the values `str[i]` yields. */
  function CharValues(s: string): (xs: seq<Json>)
    ensures |xs| == |s|
  {
    seq(|s|, i requires 0 <= i < |s| => JStr([s[i]]))
  }

  /** What `Object.keys(params)` and `params[key]` see; `Object.keys` throws on `null` and `undefined`. */
  function KeyedFields(params: Json): Option<seq<Field>> {
    match params
    case JUndefined => None
    case JNull => None
    case JObj(fs) => Some(fs)
    case JArr(xs) => Some(IndexFields(xs, 0))
    case JStr(s) => Some(IndexFields(CharValues(s), 0))
    case _ => Some([])
  }

  /** A string's own keys are its positions "0", "1", ..., each naming the one-character string at it. */
  lemma StringKeys(s: string)
    ensures KeyedFields(JStr(s)).Some?
    ensures var fs := KeyedFields(JStr(s)).value;
            |fs| == |s| && forall i :: 0 <= i < |s| ==> fs[i] == Field(NatToString(i), JStr([s[i]]))
  {
    var fs := KeyedFields(JStr(s)).value;
    assert fs == IndexFields(CharValues(s), 0);
    forall i | 0 <= i < |s| ensures fs[i] == Field(NatToString(i), JStr([s[i]])) {
      assert CharValues(s)[i] == JStr([s[i]]);
    }
  }

  /** The `map(key => `${key}=${params[key]}`).join('')` over the sorted keys. */
  function FlatRender(keys: seq<string>, fs: seq<Field>): string {
    if keys == [] then "" else keys[0] + "=" + ToStr(Lookup(fs, keys[0])) + FlatRender(keys[1..], fs)
  }

  /** The string that is hashed before the key is appended; `None` where `Object.keys` throws. */
  function SortedParams(params: Json): (r: Option<string>)
    ensures r.None? <==> Nullish(params)
  {
    match KeyedFields(params)
    case None => None
    case Some(fs) => Some(FlatRender(SortStrings(KeysOf(fs)), fs))
  }

  /** `generateSign(params)`; `None` is the TypeError it throws for `null` or `undefined`. */
  function Sign(params: Json, privateKey: string, md5: string -> string): (sign: Option<string>)
    ensures sign.None? <==> Nullish(params)
  {
    match SortedParams(params)
    case None => None
    case Some(s) => Some(md5(s + privateKey))
  }

  lemma {:induction false} FlatRenderAgrees(keys: seq<string>, fs: seq<Field>)
    requires forall k :: k in keys ==> k in KeysOf(fs) && !IsObjectLike(Lookup(fs, k))
    ensures FlatRender(keys, fs) == RenderKeys(keys, fs)
    decreases |keys|
  {
    if keys != [] {
      FlatRenderAgrees(keys[1..], fs);
    }
  }

  /** On an object whose values are all primitives the flat and the nested signatures coincide. */
  lemma FlatAgreesWithNested(fs: seq<Field>, privateKey: string, md5: string -> string)
    requires forall k :: k in KeysOf(fs) ==> !IsObjectLike(Lookup(fs, k))
    ensures Sign(JObj(fs), privateKey, md5) == Some(GenerateSign2.Sign(JObj(fs), privateKey, md5))
  {
    SortedFrom(KeysOf(fs));
    FlatRenderAgrees(SortStrings(KeysOf(fs)), fs);
    ObjectParams(fs);
  }

  /** On an object both renderings walk its sorted own keys. */
  lemma ObjectParams(fs: seq<Field>)
    ensures SortedParams(JObj(fs)) == Some(FlatRender(SortStrings(KeysOf(fs)), fs))
    ensures forall k :: k in SortStrings(KeysOf(fs)) ==> k in KeysOf(fs)
    ensures ParamsToString(JObj(fs)) == RenderKeys(SortStrings(KeysOf(fs)), fs)
  {
    SortedFrom(KeysOf(fs));
  }

  /** A nested object is where the two differ: the flat form writes it as "[object Object]". */
  lemma NestedObjectNotFlattened()
    ensures SortedParams(JObj([Field("a", JObj([Field("b", JNum(1))]))])) == Some("a=[object Object]")
    ensures ParamsToString(JObj([Field("a", JObj([Field("b", JNum(1))]))])) == "a=b=1"
  {
    NestedFlatForm();
    NestedRecursiveForm();
  }

  lemma NestedFlatForm()
    ensures SortedParams(JObj([Field("a", JObj([Field("b", JNum(1))]))])) == Some("a=[object Object]")
  {
    var inner := [Field("b", JNum(1))];
    var outer := [Field("a", JObj(inner))];
    assert KeysOf(outer) == ["a"];
    assert SortStrings(["a"]) == ["a"];
    assert ["a"][1..] == [];
    assert Lookup(outer, "a") == JObj(inner);
    assert ToStr(JObj(inner)) == "[object Object]";
    assert FlatRender(["a"], outer) == "a" + "=" + "[object Object]" + FlatRender([], outer);
    assert KeyedFields(JObj(outer)) == Some(outer);
    assert SortedParams(JObj(outer)) == Some(FlatRender(SortStrings(KeysOf(outer)), outer));
    assert FlatRender([], outer) == "";
    ObjectEntryText();
  }

  lemma ObjectEntryText()
    ensures "a" + "=" + "[object Object]" + "" == "a=[object Object]"
  {
  }

  lemma NestedRecursiveForm()
    ensures ParamsToString(JObj([Field("a", JObj([Field("b", JNum(1))]))])) == "a=b=1"
  {
    var inner := [Field("b", JNum(1))];
    var outer := [Field("a", JObj(inner))];
    assert KeysOf(inner) == ["b"] && KeysOf(outer) == ["a"];
    assert SortStrings(["b"]) == ["b"] && SortStrings(["a"]) == ["a"];
    assert ["a"][1..] == [] && ["b"][1..] == [];
    assert NatToString(1) == "1";
    assert ParamsToString(JObj(inner)) == RenderKeys(["b"], inner) == "b=1";
    assert RenderKeys(["a"], outer) == RenderEntry("a", JObj(inner), FieldsSize(outer)) + RenderKeys([], outer);
    assert Lookup(outer, "a") == JObj(inner);
  }

  lemma {:induction false} FlatRenderSameValues(keys: seq<string>, fa: seq<Field>, fb: seq<Field>)
    requires forall k :: k in keys ==> Lookup(fa, k) == Lookup(fb, k)
    ensures FlatRender(keys, fa) == FlatRender(keys, fb)
    decreases |keys|
  {
    if keys != [] {
      FlatRenderSameValues(keys[1..], fa, fb);
    }
  }

  /** The flat signature does not depend on key insertion order either. */
  lemma FlatKeyOrderIrrelevant(fa: seq<Field>, fb: seq<Field>)
    requires multiset(KeysOf(fa)) == multiset(KeysOf(fb))
    requires forall k :: k in KeysOf(fa) ==> Lookup(fa, k) == Lookup(fb, k)
    ensures SortedParams(JObj(fa)) == SortedParams(JObj(fb))
  {
    SortIgnoresOrder(KeysOf(fa), KeysOf(fb));
    var keys := SortStrings(KeysOf(fa));
    SortedFrom(KeysOf(fa));
    FlatRenderSameValues(keys, fa, fb);
  }
}
