/** The order in which `Object.values` lists the properties of a plain
    object: integer-like keys ("array indices") first, in ascending numeric
    order, then every other key in insertion order. */
module JsObject {
  import opened Seqs

  predicate IsDigit(c: char)
  {
    '0' <= c <= '9'
  }

  /** The decimal value of a digit string. */
  function DigitsValue(s: string): nat
    requires forall i :: 0 <= i < |s| ==> IsDigit(s[i])
  {
    if s == [] then 0
    else
      assert IsDigit(s[|s| - 1]);
      DigitsValue(s[..|s| - 1]) * 10 + (s[|s| - 1] as int - '0' as int)
  }

  /** A canonical numeric string below 2^32 - 1: an array index. */
  predicate IsArrayIndex(k: string)
  {
    && |k| > 0
    && (forall i :: 0 <= i < |k| ==> IsDigit(k[i]))
    && (k[0] != '0' || |k| == 1)
    && DigitsValue(k) < 0xFFFF_FFFF
  }

  predicate IsStringKey(k: string)
  {
    !IsArrayIndex(k)
  }

  /** The numeric value an array-index key is ordered by. */
  function IndexValue(k: string): nat
  {
    if IsArrayIndex(k) then DigitsValue(k) else 0
  }

  predicate Ascending(s: seq<string>)
  {
    forall i, j :: 0 <= i < j < |s| ==> IndexValue(s[i]) <= IndexValue(s[j])
  }

  /** Stable insertion of `k` into a list ascending by index value. */
  function InsertAsc(k: string, s: seq<string>): (r: seq<string>)
    ensures |r| == |s| + 1
    ensures r[0] == k || (s != [] && r[0] == s[0])
    ensures multiset(r) == multiset(s) + multiset{k}
  {
    if s == [] then [k]
    else if IndexValue(k) <= IndexValue(s[0]) then [k] + s
    else
      assert s == [s[0]] + s[1..];
      [s[0]] + InsertAsc(k, s[1..])
  }

  /** Insertion keeps a lower bound that the key and the list respect. */
  lemma {:induction false} InsertAscAbove(k: string, s: seq<string>, v: nat)
    requires v <= IndexValue(k) && forall i :: 0 <= i < |s| ==> v <= IndexValue(s[i])
    ensures forall i :: 0 <= i < |InsertAsc(k, s)| ==> v <= IndexValue(InsertAsc(k, s)[i])
  {
    if s != [] && IndexValue(k) > IndexValue(s[0]) {
      InsertAscAbove(k, s[1..], v);
    }
  }

  lemma {:induction false} InsertAscSorted(k: string, s: seq<string>)
    requires Ascending(s)
    ensures Ascending(InsertAsc(k, s))
  {
    if s != [] && IndexValue(k) > IndexValue(s[0]) {
      InsertAscSorted(k, s[1..]);
      InsertAscAbove(k, s[1..], IndexValue(s[0]));
    }
  }

  function SortAsc(s: seq<string>): (r: seq<string>)
    ensures multiset(r) == multiset(s)
    ensures Ascending(r)
  {
    if s == [] then []
    else
      assert s == [s[0]] + s[1..];
      InsertAscSorted(s[0], SortAsc(s[1..]));
      InsertAsc(s[0], SortAsc(s[1..]))
  }

  /** The keys of an object, listed as `Object.values` visits them, given
      the keys in insertion order. */
  function OwnKeys(keys: seq<string>): (r: seq<string>)
    ensures multiset(r) == multiset(keys)
    ensures |r| == |keys|
  {
    FilterSplit(keys, IsArrayIndex, IsStringKey);
    assert |multiset(keys)| == |keys|;
    SortAsc(Filter(keys, IsArrayIndex)) + Filter(keys, IsStringKey)
  }

  /** Every element of a permutation of a filter passes the filter. */
  lemma PermutedFilterPasses(keys: seq<string>, a: seq<string>, p: string -> bool)
    requires multiset(a) == multiset(Filter(keys, p))
    ensures forall i :: 0 <= i < |a| ==> p(a[i])
  {
    FilterMembers(keys, p);
    forall i | 0 <= i < |a| ensures p(a[i]) {
      assert a[i] in multiset(Filter(keys, p));
    }
  }

  /** Array-index keys come first, in ascending numeric order. */
  lemma IndexKeysFirst(keys: seq<string>)
    ensures forall i, j :: 0 <= i < j < |OwnKeys(keys)| && IsArrayIndex(OwnKeys(keys)[j]) ==>
      IsArrayIndex(OwnKeys(keys)[i]) && IndexValue(OwnKeys(keys)[i]) <= IndexValue(OwnKeys(keys)[j])
  {
    var a := SortAsc(Filter(keys, IsArrayIndex));
    var b := Filter(keys, IsStringKey);
    var r := OwnKeys(keys);
    assert r == a + b;
    PermutedFilterPasses(keys, a, IsArrayIndex);
    PermutedFilterPasses(keys, b, IsStringKey);
    forall k | 0 <= k < |r| ensures IsArrayIndex(r[k]) <==> k < |a| {
      if k < |a| {
        assert r[k] == a[k];
      } else {
        assert r[k] == b[k - |a|];
      }
    }
    forall i, j | 0 <= i < j < |r| && IsArrayIndex(r[j])
      ensures IsArrayIndex(r[i]) && IndexValue(r[i]) <= IndexValue(r[j])
    {
      assert j < |a|;
      assert r[i] == a[i] && r[j] == a[j];
    }
  }

  /** The remaining keys keep their insertion order. */
  lemma StringKeysKeepOrder(keys: seq<string>)
    ensures Filter(OwnKeys(keys), IsStringKey) == Filter(keys, IsStringKey)
  {
    var a := SortAsc(Filter(keys, IsArrayIndex));
    var b := Filter(keys, IsStringKey);
    FilterMembers(keys, IsArrayIndex);
    FilterMembers(keys, IsStringKey);
    forall i | 0 <= i < |a| ensures !IsStringKey(a[i]) {
      assert a[i] in multiset(a);
    }
    FilterAppend(a, b, IsStringKey);
    FilterNone(a, IsStringKey);
    FilterAll(b, IsStringKey);
  }

  /** Keys that are not array indices are listed in insertion order. */
  lemma StringKeysInInsertionOrder(keys: seq<string>)
    requires forall i :: 0 <= i < |keys| ==> IsStringKey(keys[i])
    ensures OwnKeys(keys) == keys
  {
    FilterNone(keys, IsArrayIndex);
    FilterAll(keys, IsStringKey);
  }

  /** Integer-like keys are listed by value, whatever the insertion order:
      "11" is inserted before "1" and still listed after it. */
  lemma IndexKeysByValue()
    ensures OwnKeys(["11", "1"]) == ["1", "11"]
  {
    assert DigitsValue("1") == 1;
    assert DigitsValue("11") == 11 by {
      assert "11"[..1] == "1";
    }
    assert IsArrayIndex("1") && IsArrayIndex("11");
    assert Filter(["11", "1"], IsArrayIndex) == ["11", "1"];
    assert Filter(["11", "1"], IsStringKey) == [];
  }

  /** `Object.values` of an object with entries `m` whose keys were added in
      the order `insertion`. */
  function Values<V>(m: map<string, V>, insertion: seq<string>): (r: seq<V>)
    requires forall k :: k in insertion ==> k in m
    ensures |r| == |insertion|
    ensures forall i :: 0 <= i < |r| ==> OwnKeys(insertion)[i] in m && r[i] == m[OwnKeys(insertion)[i]]
  {
    var keys := OwnKeys(insertion);
    assert forall i :: 0 <= i < |keys| ==> keys[i] in multiset(insertion);
    seq(|keys|, i requires 0 <= i < |keys| => m[keys[i]])
  }
}
