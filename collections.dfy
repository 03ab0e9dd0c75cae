/** Sequence operations that the generators use through LINQ: Where, Select, Distinct, GroupBy. */
module Collections {

  /** `s.Where(f)`: the elements of `s` satisfying `f`, in their original order. */
  function Filter<T>(s: seq<T>, f: T -> bool): (r: seq<T>)
    ensures |r| <= |s|
    ensures forall x :: x in r ==> x in s && f(x)
  {
    if s == [] then [] else (if f(s[0]) then [s[0]] else []) + Filter(s[1..], f)
  }

  /** `s.Select(f)`. */
  function Map<T, U>(s: seq<T>, f: T -> U): (r: seq<U>)
    ensures |r| == |s|
    ensures forall i :: 0 <= i < |s| ==> r[i] == f(s[i])
  {
    seq(|s|, i requires 0 <= i < |s| => f(s[i]))
  }

  /** `a` is `b` with some elements left out, the rest kept in order. */
  predicate IsSubsequence<T(==)>(a: seq<T>, b: seq<T>)
    decreases |b|
  {
    if a == [] then true
    else if b == [] then false
    else if a[0] == b[0] then IsSubsequence(a[1..], b[1..])
    else IsSubsequence(a, b[1..])
  }

  predicate NoDuplicates<T(==)>(s: seq<T>) {
    forall i, j :: 0 <= i < j < |s| ==> s[i] != s[j]
  }

  lemma {:induction false} FilterConcat<T>(a: seq<T>, b: seq<T>, f: T -> bool)
    ensures Filter(a + b, f) == Filter(a, f) + Filter(b, f)
  {
    if a == [] {
      assert a + b == b;
    } else {
      assert (a + b)[0] == a[0];
      assert (a + b)[1..] == a[1..] + b;
      FilterConcat(a[1..], b, f);
    }
  }

  /** Filtering keeps exactly the copies of the elements that satisfy `f`. */
  lemma {:induction false} FilterMultiset<T>(s: seq<T>, f: T -> bool)
    ensures forall x :: multiset(Filter(s, f))[x] == if f(x) then multiset(s)[x] else 0
  {
    if s != [] {
      FilterMultiset(s[1..], f);
      assert s == [s[0]] + s[1..];
    }
  }

  lemma {:induction false} FilterIsSubsequence<T>(s: seq<T>, f: T -> bool)
    ensures IsSubsequence(Filter(s, f), s)
  {
    if s != [] {
      FilterIsSubsequence(s[1..], f);
      if f(s[0]) {
        assert Filter(s, f) == [s[0]] + Filter(s[1..], f);
        assert ([s[0]] + Filter(s[1..], f))[1..] == Filter(s[1..], f);
      } else {
        assert Filter(s, f) == Filter(s[1..], f);
        assert s == [s[0]] + s[1..];
        SubsequenceCons(Filter(s[1..], f), s[0], s[1..]);
      }
    }
  }

  /** A subsequence of `b` is also one of `[x] + b`. */
  lemma {:induction false} SubsequenceCons<T>(a: seq<T>, x: T, b: seq<T>)
    requires IsSubsequence(a, b)
    ensures IsSubsequence(a, [x] + b)
    decreases |b|, 1
  {
    assert ([x] + b)[1..] == b;
    if a != [] && a[0] == x {
      SubsequenceDropHead(a, b);
    }
  }

  lemma {:induction false} SubsequenceDropHead<T>(a: seq<T>, b: seq<T>)
    requires a != [] && IsSubsequence(a, b)
    ensures IsSubsequence(a[1..], b)
    decreases |b|, 0
  {
    assert b == [b[0]] + b[1..];
    if a[0] == b[0] {
      SubsequenceCons(a[1..], b[0], b[1..]);
    } else {
      SubsequenceDropHead(a, b[1..]);
      SubsequenceCons(a[1..], b[0], b[1..]);
    }
  }

  /** `s.Distinct()`: the first occurrence of every element, in order of first appearance. */
  function Distinct<T(==)>(s: seq<T>): (r: seq<T>)
    ensures forall x :: x in r ==> x in s
    ensures forall x :: x in s ==> x in r
    ensures NoDuplicates(r)
  {
    if s == [] then []
    else
      var d := Distinct(s[..|s| - 1]);
      if s[|s| - 1] in d then d else d + [s[|s| - 1]]
  }

  /** One group of `GroupBy`: a key and the elements carrying it, in their original order. */
  datatype Group<K, T> = Group(key: K, members: seq<T>)

  /** `s.GroupBy(key)`: one group per distinct key, in order of the key's first appearance. */
  function GroupBy<T, K(==)>(s: seq<T>, key: T -> K): (r: seq<Group<K, T>>)
    ensures |r| == |Distinct(Map(s, key))|
    ensures forall i :: 0 <= i < |r| ==> r[i].key == Distinct(Map(s, key))[i]
    ensures forall i :: 0 <= i < |r| ==> r[i].members == Filter(s, x => key(x) == r[i].key)
  {
    var keys := Distinct(Map(s, key));
    seq(|keys|, i requires 0 <= i < |keys| => Group(keys[i], Filter(s, x => key(x) == keys[i])))
  }

  /** Every group is non-empty, its members carry its key, no key repeats, and every element is in its key's group. */
  lemma GroupByPartitions<T, K>(s: seq<T>, key: T -> K)
    ensures var gs := GroupBy(s, key);
      && (forall i, j :: 0 <= i < j < |gs| ==> gs[i].key != gs[j].key)
      && (forall i :: 0 <= i < |gs| ==> gs[i].members != [])
      && (forall i, x :: 0 <= i < |gs| && x in gs[i].members ==> key(x) == gs[i].key)
      && (forall x :: x in s ==> exists i :: 0 <= i < |gs| && gs[i].key == key(x) && x in gs[i].members)
  {
    var gs := GroupBy(s, key);
    var keys := Distinct(Map(s, key));
    forall i | 0 <= i < |gs| ensures gs[i].members != [] {
      assert keys[i] in Map(s, key);
      var j :| 0 <= j < |s| && Map(s, key)[j] == keys[i];
      FilterKeeps(s, x => key(x) == keys[i], j);
    }
    forall x | x in s ensures exists i :: 0 <= i < |gs| && gs[i].key == key(x) && x in gs[i].members {
      var j :| 0 <= j < |s| && s[j] == x;
      assert Map(s, key)[j] == key(x);
      assert key(x) in keys;
      var i :| 0 <= i < |keys| && keys[i] == key(x);
      FilterKeeps(s, y => key(y) == keys[i], j);
      assert gs[i].key == key(x) && x in gs[i].members;
    }
  }

  lemma {:induction false} FilterKeeps<T>(s: seq<T>, f: T -> bool, j: int)
    requires 0 <= j < |s| && f(s[j])
    ensures s[j] in Filter(s, f)
  {
    if j > 0 {
      FilterKeeps(s[1..], f, j - 1);
    }
  }

  /** Subsequence is transitive. */
  lemma {:induction false} SubsequenceTransitive<T>(a: seq<T>, b: seq<T>, c: seq<T>)
    requires IsSubsequence(a, b) && IsSubsequence(b, c)
    ensures IsSubsequence(a, c)
    decreases |c|
  {
    if a != [] {
      if b[0] == c[0] {
        if a[0] == b[0] {
          SubsequenceTransitive(a[1..], b[1..], c[1..]);
        } else {
          SubsequenceTransitive(a, b[1..], c[1..]);
        }
      } else {
        SubsequenceTransitive(a, b, c[1..]);
        assert c == [c[0]] + c[1..];
        SubsequenceCons(a, c[0], c[1..]);
      }
    }
  }

  /** The number of elements of `s` that satisfy `c`. */
  function CountWhere<T>(s: seq<T>, c: T -> bool): nat {
    |Filter(s, c)|
  }

  /** Rearranging a sequence does not change how many of its elements satisfy a condition. */
  lemma {:induction false} CountWhereMultiset<T>(a: seq<T>, b: seq<T>, c: T -> bool)
    requires multiset(a) == multiset(b)
    ensures CountWhere(a, c) == CountWhere(b, c)
    decreases |a|
  {
    if a == [] {
      assert |multiset(b)| == 0;
    } else {
      assert a[0] in multiset(b);
      var k :| 0 <= k < |b| && b[k] == a[0];
      var rest := b[..k] + b[k + 1..];
      assert b == b[..k] + [b[k]] + b[k + 1..];
      assert a == [a[0]] + a[1..];
      calc {
        multiset(a[1..]);
        multiset(a) - multiset{a[0]};
        multiset(b) - multiset{b[k]};
        multiset(rest);
      }
      CountWhereMultiset(a[1..], rest, c);
      CountWhereConcat(b[..k] + [b[k]], b[k + 1..], c);
      CountWhereConcat(b[..k], [b[k]], c);
      CountWhereConcat(b[..k], b[k + 1..], c);
      CountWhereConcat([a[0]], a[1..], c);
    }
  }

  /** Counting over a concatenation adds up. */
  lemma CountWhereConcat<T>(a: seq<T>, b: seq<T>, c: T -> bool)
    ensures CountWhere(a + b, c) == CountWhere(a, c) + CountWhere(b, c)
  {
    FilterConcat(a, b, c);
  }

  /** Counting the elements of a filtered sequence that satisfy `g` counts those satisfying both conditions. */
  lemma {:induction false} CountWhereFiltered<T>(s: seq<T>, f: T -> bool, g: T -> bool, fg: T -> bool)
    requires forall x :: fg(x) == (f(x) && g(x))
    ensures CountWhere(Filter(s, f), g) == CountWhere(s, fg)
  {
    if s != [] {
      CountWhereFiltered(s[1..], f, g, fg);
      var head := if f(s[0]) then [s[0]] else [];
      FilterConcat(head, Filter(s[1..], f), g);
    }
  }

  /** `Where` keeps exactly the elements that satisfy the condition. */
  lemma {:induction false} FilterMembership<T>(s: seq<T>, f: T -> bool, x: T)
    ensures x in Filter(s, f) <==> x in s && f(x)
  {
    if x in s && f(x) {
      var j :| 0 <= j < |s| && s[j] == x;
      FilterKeeps(s, f, j);
    }
  }

  /** The image of an element is in the mapped sequence. */
  lemma MapMember<T, U>(s: seq<T>, f: T -> U, x: T)
    requires x in s
    ensures f(x) in Map(s, f)
  {
    var i :| 0 <= i < |s| && s[i] == x;
    assert Map(s, f)[i] == f(x);
  }

  /** An element of the mapped sequence is the image of an element. */
  lemma MapSource<T, U>(s: seq<T>, f: T -> U, y: U) returns (x: T)
    requires y in Map(s, f)
    ensures x in s && f(x) == y
  {
    var i :| 0 <= i < |s| && Map(s, f)[i] == y;
    x := s[i];
  }

  /** Concatenation is associative. */
  lemma ConcatAssoc<T>(a: seq<T>, b: seq<T>, c: seq<T>)
    ensures (a + b) + c == a + (b + c)
  {
  }

  lemma MapConcat<T, U>(a: seq<T>, b: seq<T>, f: T -> U)
    ensures Map(a + b, f) == Map(a, f) + Map(b, f)
  {
  }
  /** `s.SelectMany(f)`: the results of `f` over `s`, concatenated in order. */
  function FlatMap<T, U>(s: seq<T>, f: T -> seq<U>): seq<U> {
    if s == [] then [] else FlatMap(s[..|s| - 1], f) + f(s[|s| - 1])
  }

  lemma {:induction false} FlatMapConcat<T, U>(a: seq<T>, b: seq<T>, f: T -> seq<U>)
    ensures FlatMap(a + b, f) == FlatMap(a, f) + FlatMap(b, f)
    decreases |b|
  {
    if b == [] {
      assert a + b == a;
    } else {
      var init := b[..|b| - 1];
      FlatMapConcat(a, init, f);
      assert (a + b)[..|a + b| - 1] == a + init;
      assert (a + b)[|a + b| - 1] == b[|b| - 1];
      ConcatAssoc(FlatMap(a, f), FlatMap(init, f), f(b[|b| - 1]));
    }
  }

  /** An element whose step yields nothing can be dropped. */
  lemma FlatMapSkip<T, U>(a: seq<T>, x: T, b: seq<T>, f: T -> seq<U>)
    requires f(x) == []
    ensures FlatMap(a + [x] + b, f) == FlatMap(a + b, f)
  {
    FlatMapConcat(a + [x], b, f);
    FlatMapConcat(a, [x], f);
    FlatMapConcat(a, b, f);
    assert [x][..0] == [];
  }

  /** When each step yields `[g(x)]` or nothing as `c(x)` holds, the run is `Where(c).Select(g)`. */
  lemma {:induction false} FlatMapOfOptional<T, U>(s: seq<T>, f: T -> seq<U>, c: T -> bool, g: T -> U)
    requires forall x :: f(x) == if c(x) then [g(x)] else []
    ensures FlatMap(s, f) == Map(Filter(s, c), g)
  {
    if s != [] {
      var init := s[..|s| - 1];
      var last := s[|s| - 1];
      FlatMapOfOptional(init, f, c, g);
      assert s == init + [last];
      FilterConcat(init, [last], c);
      OptionalStep(last, c, g);
      MapConcat(Filter(init, c), Filter([last], c), g);
      assert Map(Filter([last], c), g) == f(last);
    }
  }

  /** One element filtered and mapped: `[g(x)]` when `c(x)` holds, nothing otherwise. */
  lemma OptionalStep<T, U>(x: T, c: T -> bool, g: T -> U)
    ensures Filter([x], c) == if c(x) then [x] else []
    ensures Map(Filter([x], c), g) == if c(x) then [g(x)] else []
  {
    assert [x][1..] == [];
  }
}
