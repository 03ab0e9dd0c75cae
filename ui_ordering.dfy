/**
 * GetPropertiesForUIBlocks: which properties get a form block, and in what order.
 * The order is a stable sort on a bucket key, modelled as the concatenation of the
 * buckets 0..5, each of which keeps its input order.
 */
module UiOrdering {
  import opened Collections
  import opened Metadata

  /** The audit and key columns that never get a form block. */
  const HiddenNames: set<string> := {"Version", "Id", "CreatedAt", "ModifiedAt"}

  /** The `Where` of GetPropertiesForUIBlocks. */
  predicate KeepForUIBlocks(h: Helpers, p: Property) {
    && p.name !in HiddenNames
    && (!h.isEnumerable(p.typeName) || h.hasUIOrderedOneToManyAttribute(p) || h.isMultiSelectControlType(p)
        || h.isMultiAutocompleteControlType(p) || h.hasSimpleManyToManyTableLazyLoadAttribute(p))
    && !HasAttributeNamed(p.attributes, "UIDoNotGenerate")
  }

  /** The `OrderBy` key: blobs first, then ordinary controls, text areas, editors, ordered lists, lazy tables. */
  function BlockKey(p: Property): (k: nat)
    ensures k <= 5
  {
    if HasAttributeNamed(p.attributes, "BlobName") then 0
    else if HasAttributeValue(p.attributes, "TextArea") then 2
    else if HasAttributeValue(p.attributes, "Editor") then 3
    else if HasAttributeNamed(p.attributes, "UIOrderedOneToMany") then 4
    else if HasAttributeNamed(p.attributes, "SimpleManyToManyTableLazyLoad") then 5
    else 1
  }

  /** The bucket each property falls into, in the order the key's tests are made. */
  lemma BlockKeyBuckets(p: Property)
    ensures BlockKey(p) == 0 <==> HasAttributeNamed(p.attributes, "BlobName")
    ensures BlockKey(p) == 2 <==> !HasAttributeNamed(p.attributes, "BlobName") && HasAttributeValue(p.attributes, "TextArea")
    ensures BlockKey(p) == 3 <==> !HasAttributeNamed(p.attributes, "BlobName") && !HasAttributeValue(p.attributes, "TextArea")
                                   && HasAttributeValue(p.attributes, "Editor")
    ensures BlockKey(p) == 4 ==> HasAttributeNamed(p.attributes, "UIOrderedOneToMany")
    ensures BlockKey(p) == 5 ==> HasAttributeNamed(p.attributes, "SimpleManyToManyTableLazyLoad")
    ensures BlockKey(p) == 1 ==> !HasAttributeNamed(p.attributes, "UIOrderedOneToMany")
                                  && !HasAttributeNamed(p.attributes, "SimpleManyToManyTableLazyLoad")
  {
  }

  /** The elements of `s` whose key is `k`, in input order. */
  function Bucket(s: seq<Property>, k: nat): (b: seq<Property>)
    ensures forall i :: 0 <= i < |b| ==> BlockKey(b[i]) == k
    ensures |b| <= |s|
  {
    if s == [] then []
    else (if BlockKey(s[0]) == k then [s[0]] else []) + Bucket(s[1..], k)
  }

  /** Buckets `lo` to 5, concatenated. */
  function BucketsFrom(s: seq<Property>, lo: nat): seq<Property>
    requires lo <= 6
    decreases 6 - lo
  {
    if lo == 6 then [] else Bucket(s, lo) + BucketsFrom(s, lo + 1)
  }

  /** Non-decreasing in block key. */
  predicate SortedByKey(t: seq<Property>) {
    forall i, j :: 0 <= i < j < |t| ==> BlockKey(t[i]) <= BlockKey(t[j])
  }

  /** GetPropertiesForUIBlocks: filter, then stable sort by block key. */
  function GetPropertiesForUIBlocks(h: Helpers, properties: seq<Property>): (r: seq<Property>)
    ensures forall p :: p in r <==> p in properties && KeepForUIBlocks(h, p)
  {
    var kept := Filter(properties, p => KeepForUIBlocks(h, p));
    StableBucketSort(kept);
    FilterMultiset(properties, p => KeepForUIBlocks(h, p));
    assert forall p :: p in BucketsFrom(kept, 0) <==> p in multiset(kept);
    BucketsFrom(kept, 0)
  }

  // ---------------------------------------------------------------------
  // Algebra of buckets

  lemma {:induction false} BucketConcat(a: seq<Property>, b: seq<Property>, k: nat)
    ensures Bucket(a + b, k) == Bucket(a, k) + Bucket(b, k)
  {
    if a == [] {
      assert a + b == b;
    } else {
      assert (a + b)[0] == a[0];
      assert (a + b)[1..] == a[1..] + b;
      BucketConcat(a[1..], b, k);
    }
  }

  lemma {:induction false} BucketOfBucket(s: seq<Property>, j: nat, k: nat)
    ensures Bucket(Bucket(s, j), k) == if j == k then Bucket(s, k) else []
  {
    if s != [] {
      var head := if BlockKey(s[0]) == j then [s[0]] else [];
      BucketConcat(head, Bucket(s[1..], j), k);
      BucketOfBucket(s[1..], j, k);
    }
  }

  /** Bucket `k` of buckets `lo..5` is bucket `k` of the input when `lo <= k`, and empty below. */
  lemma {:induction false} BucketOfBucketsFrom(s: seq<Property>, lo: nat, k: nat)
    requires lo <= 6
    ensures Bucket(BucketsFrom(s, lo), k) == if lo <= k <= 5 then Bucket(s, k) else []
    decreases 6 - lo
  {
    if lo < 6 {
      BucketConcat(Bucket(s, lo), BucketsFrom(s, lo + 1), k);
      BucketOfBucket(s, lo, k);
      BucketOfBucketsFrom(s, lo + 1, k);
      PickOne(Bucket(BucketsFrom(s, lo), k), Bucket(Bucket(s, lo), k), Bucket(BucketsFrom(s, lo + 1), k),
              Bucket(s, k), lo == k, lo + 1 <= k <= 5);
    }
  }

  /** A concatenation of two parts, each `t` or empty and never both `t`, is `t` exactly when one part is. */
  lemma PickOne<T>(x: seq<T>, here: seq<T>, later: seq<T>, t: seq<T>, inHere: bool, inLater: bool)
    requires x == here + later && !(inHere && inLater)
    requires here == (if inHere then t else []) && later == (if inLater then t else [])
    ensures x == if inHere || inLater then t else []
  {
  }

  lemma {:induction false} BucketsFromKeys(s: seq<Property>, lo: nat)
    requires lo <= 6
    ensures forall i :: 0 <= i < |BucketsFrom(s, lo)| ==> lo <= BlockKey(BucketsFrom(s, lo)[i])
    decreases 6 - lo
  {
    if lo < 6 {
      BucketsFromKeys(s, lo + 1);
      var t := BucketsFrom(s, lo);
      forall i | 0 <= i < |t| ensures lo <= BlockKey(t[i]) {
        if i >= |Bucket(s, lo)| {
          assert t[i] == BucketsFrom(s, lo + 1)[i - |Bucket(s, lo)|];
        }
      }
    }
  }

  lemma {:induction false} BucketsFromSorted(s: seq<Property>, lo: nat)
    requires lo <= 6
    ensures SortedByKey(BucketsFrom(s, lo))
    decreases 6 - lo
  {
    if lo < 6 {
      BucketsFromSorted(s, lo + 1);
      BucketsFromKeys(s, lo + 1);
      var b, rest := Bucket(s, lo), BucketsFrom(s, lo + 1);
      var t := b + rest;
      forall i, j | 0 <= i < j < |t| ensures BlockKey(t[i]) <= BlockKey(t[j]) {
        if j < |b| {
          assert t[i] == b[i] && t[j] == b[j];
        } else if i < |b| {
          assert t[i] == b[i] && t[j] == rest[j - |b|];
        } else {
          assert t[i] == rest[i - |b|] && t[j] == rest[j - |b|];
        }
      }
    }
  }

  lemma {:induction false} BucketsFromMultiset(s: seq<Property>, lo: nat)
    requires lo <= 6
    ensures multiset(BucketsFrom(s, lo)) == multiset(AtLeast(s, lo))
    decreases |s|, 6 - lo
  {
    if s == [] {
      if lo < 6 {
        BucketsFromMultiset(s, lo + 1);
      }
    } else {
      var x, r := s[0], s[1..];
      assert s == [x] + r;
      BucketsFromMultiset(r, lo);
      BucketsFromCons(x, r, lo);
    }
  }

  /** The elements whose key is at least `lo`, in input order. */
  function AtLeast(s: seq<Property>, lo: nat): seq<Property> {
    if s == [] then [] else (if lo <= BlockKey(s[0]) then [s[0]] else []) + AtLeast(s[1..], lo)
  }

  /** Consing an element adds it to exactly its own bucket. */
  lemma {:induction false} BucketsFromCons(x: Property, r: seq<Property>, lo: nat)
    requires lo <= 6
    ensures multiset(BucketsFrom([x] + r, lo)) ==
      multiset(BucketsFrom(r, lo)) + (if lo <= BlockKey(x) then multiset{x} else multiset{})
    decreases 6 - lo
  {
    if lo < 6 {
      var t := [x] + r;
      assert t[0] == x && t[1..] == r;
      BucketsFromCons(x, r, lo + 1);
      var head := if BlockKey(x) == lo then [x] else [];
      assert Bucket(t, lo) == head + Bucket(r, lo);
      calc {
        multiset(BucketsFrom(t, lo));
        multiset(Bucket(t, lo)) + multiset(BucketsFrom(t, lo + 1));
        multiset(head) + multiset(Bucket(r, lo)) + multiset(BucketsFrom(t, lo + 1));
      }
      var here := if lo <= BlockKey(x) then multiset{x} else multiset{};
      var later := if lo + 1 <= BlockKey(x) then multiset{x} else multiset{};
      assert multiset(head) + later == here;
      MultisetRegroup(multiset(BucketsFrom(t, lo)), multiset(head), multiset(Bucket(r, lo)),
                      multiset(BucketsFrom(t, lo + 1)), multiset(BucketsFrom(r, lo + 1)), later, here);
    }
  }

  /** `a = h + b + c` with `c = d + e` and `h + e = g` gives `a = (b + d) + g`. */
  lemma MultisetRegroup<T>(a: multiset<T>, h: multiset<T>, b: multiset<T>, c: multiset<T>, d: multiset<T>, e: multiset<T>, g: multiset<T>)
    requires a == h + b + c && c == d + e && h + e == g
    ensures a == (b + d) + g
  {
  }

  lemma {:induction false} AtLeastZero(s: seq<Property>)
    ensures AtLeast(s, 0) == s
  {
    if s != [] {
      AtLeastZero(s[1..]);
    }
  }

  /** A first element below the lowest bucket changes nothing. */
  lemma {:induction false} BucketsFromConsBelow(t: seq<Property>, lo: nat)
    requires lo <= 6 && t != [] && BlockKey(t[0]) < lo
    ensures BucketsFrom(t, lo) == BucketsFrom(t[1..], lo)
    decreases 6 - lo
  {
    if lo < 6 {
      assert Bucket(t, lo) == Bucket(t[1..], lo);
      BucketsFromConsBelow(t, lo + 1);
    }
  }

  /** Buckets with no members may be skipped. */
  lemma {:induction false} BucketsFromSkip(t: seq<Property>, lo: nat, k: nat)
    requires lo <= k <= 6
    requires forall i :: 0 <= i < |t| ==> k <= BlockKey(t[i])
    ensures BucketsFrom(t, lo) == BucketsFrom(t, k)
    decreases k - lo
  {
    if lo < k {
      BucketEmpty(t, lo);
      BucketsFromSkip(t, lo + 1, k);
      DropEmptyPrefix(BucketsFrom(t, lo), Bucket(t, lo), BucketsFrom(t, lo + 1));
    }
  }

  lemma DropEmptyPrefix<T>(x: seq<T>, e: seq<T>, y: seq<T>)
    requires x == e + y && e == []
    ensures x == y
  {
  }

  lemma {:induction false} BucketEmpty(t: seq<Property>, k: nat)
    requires forall i :: 0 <= i < |t| ==> BlockKey(t[i]) != k
    ensures Bucket(t, k) == []
  {
    if t != [] {
      BucketEmpty(t[1..], k);
    }
  }

  /** A sequence that is already sorted by key, with keys at least `lo`, is its own buckets. */
  lemma {:induction false} SortedIsItsBuckets(t: seq<Property>, lo: nat)
    requires lo <= 6 && SortedByKey(t)
    requires forall i :: 0 <= i < |t| ==> lo <= BlockKey(t[i])
    ensures t == BucketsFrom(t, lo)
    decreases |t|
  {
    if t == [] {
      BucketsFromEmpty(lo);
    } else {
      var x, r := t[0], t[1..];
      var k := BlockKey(x);
      assert t == [x] + r;
      assert forall i :: 0 <= i < |t| ==> k <= BlockKey(t[i]) by {
        forall i | 0 <= i < |t| ensures k <= BlockKey(t[i]) {
          if i > 0 {
            assert BlockKey(t[0]) <= BlockKey(t[i]);
          }
        }
      }
      BucketsFromSkip(t, lo, k);
      SortedTail(t);
      SortedIsItsBuckets(r, k);
      BucketsFromConsLowest(t, k);
    }
  }

  lemma {:induction false} BucketsFromEmpty(lo: nat)
    requires lo <= 6
    ensures BucketsFrom([], lo) == []
    decreases 6 - lo
  {
    if lo < 6 {
      BucketsFromEmpty(lo + 1);
    }
  }

  lemma {:induction false} SortedTail(t: seq<Property>)
    requires t != [] && SortedByKey(t)
    ensures SortedByKey(t[1..])
    ensures forall i :: 0 <= i < |t[1..]| ==> BlockKey(t[0]) <= BlockKey(t[1..][i])
  {
    var r := t[1..];
    forall i | 0 <= i < |r| ensures BlockKey(t[0]) <= BlockKey(r[i]) {
      assert r[i] == t[i + 1];
    }
    forall i, j | 0 <= i < j < |r| ensures BlockKey(r[i]) <= BlockKey(r[j]) {
      assert r[i] == t[i + 1] && r[j] == t[j + 1];
    }
  }

  /** The first element lands at the front of its own bucket. */
  lemma {:induction false} BucketsFromConsLowest(t: seq<Property>, k: nat)
    requires t != [] && BlockKey(t[0]) == k
    ensures BucketsFrom(t, k) == [t[0]] + BucketsFrom(t[1..], k)
  {
    BucketsFromConsBelow(t, k + 1);
    ConcatAssoc([t[0]], Bucket(t[1..], k), BucketsFrom(t[1..], k + 1));
  }

  // ---------------------------------------------------------------------
  // Properties of GetPropertiesForUIBlocks

  /** The sort result is a permutation of its input, non-decreasing in key, and stable. */
  lemma {:induction false} StableBucketSort(s: seq<Property>)
    ensures multiset(BucketsFrom(s, 0)) == multiset(s)
    ensures SortedByKey(BucketsFrom(s, 0))
    ensures forall k: nat :: Bucket(BucketsFrom(s, 0), k) == Bucket(s, k)
  {
    BucketsFromMultiset(s, 0);
    AtLeastZero(s);
    BucketsFromSorted(s, 0);
    forall k: nat ensures Bucket(BucketsFrom(s, 0), k) == Bucket(s, k) {
      SortKeepsBucket(s, k);
    }
  }

  lemma {:induction false} SortKeepsBucket(s: seq<Property>, k: nat)
    ensures Bucket(BucketsFrom(s, 0), k) == Bucket(s, k)
  {
    BucketOfBucketsFrom(s, 0, k);
    if k > 5 {
      BucketEmpty(s, k);
    }
  }

  /** The stable sort is unique: any sorted sequence with the same buckets is the result. */
  lemma SortIsUnique(s: seq<Property>, t: seq<Property>)
    requires SortedByKey(t)
    requires forall k: nat :: k <= 5 ==> Bucket(t, k) == Bucket(s, k)
    ensures t == BucketsFrom(s, 0)
  {
    SortedIsItsBuckets(t, 0);
    BucketsFromAgree(s, t, 0);
  }

  lemma {:induction false} BucketsFromAgree(s: seq<Property>, t: seq<Property>, lo: nat)
    requires lo <= 6
    requires forall k: nat :: k <= 5 ==> Bucket(t, k) == Bucket(s, k)
    ensures BucketsFrom(t, lo) == BucketsFrom(s, lo)
    decreases 6 - lo
  {
    if lo < 6 {
      BucketsFromAgree(s, t, lo + 1);
    }
  }

  /**
   * What the UI-block list contains: exactly the kept properties (with their multiplicities),
   * never an audit column or a `UIDoNotGenerate` property, an enumerable only when it is
   * rendered as an ordered list, multi-select, multi-autocomplete or lazy table; sorted by
   * key and, within a key, in declaration order.
   */
  lemma UIBlocksContents(h: Helpers, properties: seq<Property>)
    ensures var r := GetPropertiesForUIBlocks(h, properties);
      && multiset(r) == multiset(Filter(properties, p => KeepForUIBlocks(h, p)))
      && SortedByKey(r)
      && (forall k: nat :: IsSubsequence(Bucket(r, k), properties))
      && (forall p :: p in r <==> p in properties && KeepForUIBlocks(h, p))
  {
    var f := Filter(properties, p => KeepForUIBlocks(h, p));
    var r := BucketsFrom(f, 0);
    StableBucketSort(f);
    FilterMultiset(properties, p => KeepForUIBlocks(h, p));
    FilterIsSubsequence(properties, p => KeepForUIBlocks(h, p));
    forall k: nat ensures IsSubsequence(Bucket(r, k), properties) {
      BucketIsSubsequence(f, k);
      SubsequenceTransitive(Bucket(f, k), f, properties);
    }
    forall p ensures p in r <==> p in properties && KeepForUIBlocks(h, p) {
      assert p in r <==> p in multiset(r);
      assert p in f <==> p in multiset(f);
    }
  }

  /** Membership alone: a property is in the UI-block list exactly when it is a kept property of the input. */
  lemma UIBlocksMembers(h: Helpers, properties: seq<Property>)
    ensures forall p :: p in GetPropertiesForUIBlocks(h, properties) <==> p in properties && KeepForUIBlocks(h, p)
  {
    UIBlocksContents(h, properties);
  }

  lemma {:induction false} BucketIsSubsequence(s: seq<Property>, k: nat)
    ensures IsSubsequence(Bucket(s, k), s)
  {
    if s != [] {
      BucketIsSubsequence(s[1..], k);
      if BlockKey(s[0]) == k {
        assert ([s[0]] + Bucket(s[1..], k))[1..] == Bucket(s[1..], k);
      } else {
        assert Bucket(s, k) == Bucket(s[1..], k);
        assert s == [s[0]] + s[1..];
        SubsequenceCons(Bucket(s[1..], k), s[0], s[1..]);
      }
    }
  }

  /** Sorting leaves the number of elements meeting any condition unchanged. */
  lemma {:induction false} SortKeepsCounts(s: seq<Property>, c: Property -> bool)
    ensures CountWhere(BucketsFrom(s, 0), c) == CountWhere(s, c)
  {
    StableBucketSort(s);
    CountWhereMultiset(BucketsFrom(s, 0), s, c);
  }

  /** Counting over the UI-block list counts the kept properties of the input. */
  lemma UIBlocksCount(h: Helpers, s: seq<Property>, c: Property -> bool, kc: Property -> bool)
    requires forall p :: kc(p) == (KeepForUIBlocks(h, p) && c(p))
    ensures CountWhere(GetPropertiesForUIBlocks(h, s), c) == CountWhere(s, kc)
  {
    var f := Filter(s, p => KeepForUIBlocks(h, p));
    SortKeepsCounts(f, c);
    CountWhereFiltered(s, p => KeepForUIBlocks(h, p), c, kc);
  }
}
