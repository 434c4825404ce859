/**
 * The request signature of the booking calendar (scripts/generateSign2.js):
 * the parameters are flattened into one string, keys sorted at every level,
 * the private key is appended, and the MD5 hex digest of the result is the
 * signature.  MD5 itself is a parameter `md5`.
 */
module GenerateSign2 {
  import opened JsValue
  import opened KeyOrder
  import opened Text

  /** The fields of an array as `Object.keys` and `arr[key]` see them: index strings "0", "1", ... */
  function IndexFields(xs: seq<Json>, from: nat): (fs: seq<Field>)
    ensures |fs| == |xs|
    ensures forall i :: 0 <= i < |xs| ==> fs[i] == Field(NatToString(from + i), xs[i])
    ensures FieldsSize(fs) == ItemsSize(xs)
  {
    if xs == [] then [] else [Field(NatToString(from), xs[0])] + IndexFields(xs[1..], from + 1)
  }

  /** The own enumerable fields of an object or array. */
  function OwnFields(j: Json): (fs: seq<Field>)
    requires IsObjectLike(j)
    ensures 1 + FieldsSize(fs) == Size(j)
  {
    if j.JObj? then j.fields else IndexFields(j.items, 0)
  }

  /** `paramsToString(params)`: a primitive is `String(params)`; an object or array is `key=value` for its sorted keys, nested values rendered the same way, joined with ''. */
  function ParamsToString(j: Json): string
    decreases Size(j), 1
  {
    if !IsObjectLike(j) then ToStr(j)
    else
      var fs := OwnFields(j);
      var keys := SortStrings(KeysOf(fs));
      SortedFrom(KeysOf(fs));
      RenderKeys(keys, fs)
  }

  /** The `map(...).join('')` over the sorted keys. */
  function RenderKeys(keys: seq<string>, fs: seq<Field>): string
    requires forall k :: k in keys ==> k in KeysOf(fs)
    decreases 1 + FieldsSize(fs), 0, |keys|
  {
    if keys == [] then ""
    else
      var v := Lookup(fs, keys[0]);
      RenderEntry(keys[0], v, FieldsSize(fs)) + RenderKeys(keys[1..], fs)
  }

  /** One `key=value` entry; `bound` carries the termination measure of the enclosing object. */
  function RenderEntry(key: string, v: Json, ghost bound: nat): string
    requires Size(v) <= bound
    decreases 1 + bound, 0, 0
  {
    if IsObjectLike(v) then key + "=" + ParamsToString(v) else key + "=" + ToStr(v)
  }

  /** `generateSign2(params)`: the MD5 of the flattened parameters followed by the private key; any reordering of the keys signs the same. */
  function Sign(params: Json, privateKey: string, md5: string -> string): (sign: string)
    ensures forall b :: SameUpToKeyOrder(params, b) ==> sign == md5(ParamsToString(b) + privateKey)
  {
    FlatteningIgnoresKeyOrder(params);
    md5(ParamsToString(params) + privateKey)
  }

  // --- what the flattening promises ---

  /** Two values that differ only in the order of object keys, at any depth. */
  predicate SameUpToKeyOrder(a: Json, b: Json)
    decreases Size(a)
  {
    if IsObjectLike(a) && IsObjectLike(b) && a.JArr? == b.JArr? then
      var fa := OwnFields(a);
      var fb := OwnFields(b);
      multiset(KeysOf(fa)) == multiset(KeysOf(fb))
      && forall k | k in KeysOf(fa) :: SameUpToKeyOrder(Lookup(fa, k), Lookup(fb, k))
    else a == b
  }

  /** The flattened string, and so the signature, does not depend on the order in which keys were inserted. */
  lemma {:induction false} KeyOrderIrrelevant(a: Json, b: Json)
    requires SameUpToKeyOrder(a, b)
    ensures ParamsToString(a) == ParamsToString(b)
    decreases Size(a), 1
  {
    if IsObjectLike(a) && IsObjectLike(b) && a.JArr? == b.JArr? {
      var fa := OwnFields(a);
      var fb := OwnFields(b);
      SortIgnoresOrder(KeysOf(fa), KeysOf(fb));
      var keys := SortStrings(KeysOf(fa));
      forall k | k in keys ensures k in KeysOf(fa) && k in KeysOf(fb) {
        assert k in multiset(keys);
        assert k in multiset(KeysOf(fb));
      }
      RenderKeysAgree(keys, fa, fb);
    }
  }

  lemma FlatteningIgnoresKeyOrder(a: Json)
    ensures forall b :: SameUpToKeyOrder(a, b) ==> ParamsToString(a) == ParamsToString(b)
  {
    forall b | SameUpToKeyOrder(a, b) ensures ParamsToString(a) == ParamsToString(b) {
      KeyOrderIrrelevant(a, b);
    }
  }

  lemma {:induction false} RenderKeysAgree(keys: seq<string>, fa: seq<Field>, fb: seq<Field>)
    requires forall k :: k in keys ==> k in KeysOf(fa) && k in KeysOf(fb)
    requires forall k :: k in keys ==> SameUpToKeyOrder(Lookup(fa, k), Lookup(fb, k))
    ensures RenderKeys(keys, fa) == RenderKeys(keys, fb)
    decreases 1 + FieldsSize(fa), 0, |keys|
  {
    if keys != [] {
      var va := Lookup(fa, keys[0]);
      var vb := Lookup(fb, keys[0]);
      KeyOrderIrrelevant(va, vb);
      assert IsObjectLike(va) == IsObjectLike(vb);
      RenderKeysAgree(keys[1..], fa, fb);
    }
  }

  /** A `null` field is written `key=null`, not skipped. */
  lemma NullFieldRendered(k: string)
    ensures ParamsToString(JObj([Field(k, JNull)])) == k + "=null"
  {
    var fs := [Field(k, JNull)];
    assert KeysOf(fs) == [k];
    assert SortStrings([k]) == [k];
    assert Lookup(fs, k) == JNull;
    assert [k][1..] == [];
    assert RenderKeys([k], fs) == RenderEntry(k, JNull, FieldsSize(fs)) + RenderKeys([], fs);
  }

  lemma IndexKeyAt(xs: seq<Json>, i: nat)
    requires i < |xs|
    ensures KeysOf(IndexFields(xs, 0))[i] == NatToString(i)
  {
    assert IndexFields(xs, 0)[i] == Field(NatToString(0 + i), xs[i]);
  }

  lemma SmallIndexNames()
    ensures NatToString(2) == "2" && NatToString(10) == "10"
  {
    assert NatToString(1) == "1" && NatToString(0) == "0";
    assert NatToString(10) == NatToString(1) + [DigitChar(0)];
  }

  lemma IndexKeysPresent(xs: seq<Json>)
    requires |xs| > 10
    ensures "2" in KeysOf(IndexFields(xs, 0)) && "10" in KeysOf(IndexFields(xs, 0))
  {
    IndexKeyAt(xs, 2);
    IndexKeyAt(xs, 10);
    SmallIndexNames();
  }

  /** In a sorted sequence a smaller element that is present comes before a larger one. */
  lemma SortedPlaces(keys: seq<string>, a: string, b: string)
    requires Sorted(keys) && a in keys && b in keys && Below(a, b)
    ensures exists i, j :: 0 <= i < j < |keys| && keys[i] == a && keys[j] == b
  {
    var i :| 0 <= i < |keys| && keys[i] == a;
    var j :| 0 <= j < |keys| && keys[j] == b;
    BelowIrreflexive(a);
    if j < i {
      assert AtMost(keys[j], keys[i]);
      BelowAsymmetric(a, b);
    }
  }

  lemma TenBeforeTwo()
    ensures Below("10", "2")
  {
  }

  lemma SortedKeepsMember(ks: seq<string>, k: string)
    requires k in ks
    ensures k in SortStrings(ks)
  {
    assert k in multiset(ks);
  }

  /** Array indices are sorted as strings: in an array of more than ten items, index "10" comes before index "2". */
  lemma ArrayIndicesSortAsStrings(xs: seq<Json>)
    requires |xs| > 10
    ensures var keys := SortStrings(KeysOf(IndexFields(xs, 0)));
            exists i, j :: 0 <= i < j < |keys| && keys[i] == "10" && keys[j] == "2"
  {
    var ks := KeysOf(IndexFields(xs, 0));
    IndexKeysPresent(xs);
    TenBeforeTwo();
    SortedKeepsMember(ks, "10");
    SortedKeepsMember(ks, "2");
    SortedPlaces(SortStrings(ks), "10", "2");
  }
}
