/**
 * Sequences built by a loop that may throw part-way: `FlatMapResult(s, f)` runs `f` over
 * `s` in order, concatenating the results, and stops at the first failure.
 */
module Results {
  import opened Wrappers
  import opened Collections

  function FlatMapResult<T, U, E>(s: seq<T>, f: T -> Result<seq<U>, E>): Result<seq<U>, E> {
    if s == [] then Success([])
    else
      var init :- FlatMapResult(s[..|s| - 1], f);
      var last :- f(s[|s| - 1]);
      Success(init + last)
  }

  /** One more successful step appends its result. */
  lemma FlatMapResultStep<T, U, E>(s: seq<T>, f: T -> Result<seq<U>, E>, i: nat)
    requires i < |s| && FlatMapResult(s[..i], f).Success? && f(s[i]).Success?
    ensures FlatMapResult(s[..i + 1], f) == Success(FlatMapResult(s[..i], f).value + f(s[i]).value)
  {
    assert s[..i + 1][..i] == s[..i];
  }

  /** A failing step after a successful prefix is the failure of the whole run. */
  lemma {:induction false} FlatMapResultStopsAt<T, U, E>(s: seq<T>, f: T -> Result<seq<U>, E>, i: nat)
    requires i < |s| && FlatMapResult(s[..i], f).Success? && f(s[i]).Failure?
    ensures FlatMapResult(s, f) == Failure(f(s[i]).error)
    decreases |s|
  {
    var init := s[..|s| - 1];
    if i == |s| - 1 {
      assert init == s[..i];
    } else {
      assert init[..i] == s[..i];
      assert init[i] == s[i];
      FlatMapResultStopsAt(init, f, i);
    }
  }

  /** The run succeeds exactly when every step does. */
  lemma {:induction false} FlatMapResultSuccess<T, U, E>(s: seq<T>, f: T -> Result<seq<U>, E>)
    ensures FlatMapResult(s, f).Success? <==> forall i :: 0 <= i < |s| ==> f(s[i]).Success?
  {
    if s != [] {
      var init := s[..|s| - 1];
      FlatMapResultSuccess(init, f);
      if forall i :: 0 <= i < |s| ==> f(s[i]).Success? {
        forall i | 0 <= i < |init| ensures f(init[i]).Success? {
          assert init[i] == s[i];
        }
      }
      if FlatMapResult(s, f).Success? {
        forall i | 0 <= i < |s| ensures f(s[i]).Success? {
          if i < |init| {
            assert init[i] == s[i];
          }
        }
      }
    }
  }

  /** A failed run reports the error of its first failing step. */
  lemma {:induction false} FlatMapResultFirstFailure<T, U, E>(s: seq<T>, f: T -> Result<seq<U>, E>)
    requires FlatMapResult(s, f).Failure?
    ensures exists i :: 0 <= i < |s| && f(s[i]) == Failure(FlatMapResult(s, f).error)
                        && forall j :: 0 <= j < i ==> f(s[j]).Success?
  {
    var init := s[..|s| - 1];
    if FlatMapResult(init, f).Failure? {
      FlatMapResultFirstFailure(init, f);
      var i :| 0 <= i < |init| && f(init[i]) == Failure(FlatMapResult(init, f).error)
               && forall j :: 0 <= j < i ==> f(init[j]).Success?;
      assert s[i] == init[i];
      forall j | 0 <= j < i ensures f(s[j]).Success? {
        assert s[j] == init[j];
      }
    } else {
      FlatMapResultSuccess(init, f);
      var i := |s| - 1;
      forall j | 0 <= j < i ensures f(s[j]).Success? {
        assert s[j] == init[j];
      }
    }
  }

  /** An element of a successful run's result comes from some step, and every step's elements are in it. */
  lemma {:induction false} FlatMapResultMembership<T, U, E>(s: seq<T>, f: T -> Result<seq<U>, E>, y: U)
    requires FlatMapResult(s, f).Success?
    ensures forall i :: 0 <= i < |s| ==> f(s[i]).Success?
    ensures y in FlatMapResult(s, f).value <==> exists i :: 0 <= i < |s| && y in f(s[i]).value
  {
    FlatMapResultSuccess(s, f);
    if s != [] {
      var init := s[..|s| - 1];
      FlatMapResultMembership(init, f, y);
      if exists i :: 0 <= i < |init| && y in f(init[i]).value {
        var i :| 0 <= i < |init| && y in f(init[i]).value;
        assert s[i] == init[i];
      }
      if exists i :: 0 <= i < |s| && y in f(s[i]).value {
        var i :| 0 <= i < |s| && y in f(s[i]).value;
        if i < |init| {
          assert init[i] == s[i];
        }
      }
    }
  }

  /** Appending one element to the longer sequence, or to both, keeps a subsequence. */
  lemma {:induction false} SubsequenceAppend<T>(a: seq<T>, b: seq<T>, x: T)
    requires IsSubsequence(a, b)
    ensures IsSubsequence(a, b + [x])
    ensures IsSubsequence(a + [x], b + [x])
    decreases |b|
  {
    if a == [] {
      assert a + [x] == [x];
      SubsequenceBefore([x], b);
    } else {
      assert b != [];
      assert (b + [x])[1..] == b[1..] + [x];
      assert (a + [x])[1..] == a[1..] + [x];
      if a[0] == b[0] {
        SubsequenceAppend(a[1..], b[1..], x);
      } else {
        SubsequenceAppend(a, b[1..], x);
      }
    }
  }

  /** `[x]` is a subsequence of `b + [x]`. */
  lemma {:induction false} SubsequenceBefore<T>(single: seq<T>, b: seq<T>)
    requires |single| == 1
    ensures IsSubsequence(single, b + single)
    decreases |b|
  {
    if b == [] {
      assert b + single == single;
      assert single[1..] == [];
    } else if single[0] == b[0] {
      assert (b + single)[1..] == b[1..] + single;
      assert single[1..] == [];
    } else {
      assert (b + single)[1..] == b[1..] + single;
      SubsequenceBefore(single, b[1..]);
    }
  }

  /**
   * When every step yields nothing or the one element `g(x)` tagged by `key` with
   * `key(g(x)) == tag(x)`, the tags of a successful run's result keep the order of the inputs' tags.
   */
  lemma {:induction false} FlatMapResultAtMostOne<T, U, E, K>(s: seq<T>, f: T -> Result<seq<U>, E>, key: U -> K, tag: T -> K)
    requires forall x :: f(x).Success? ==> |f(x).value| <= 1
    requires forall x, y :: f(x).Success? && y in f(x).value ==> key(y) == tag(x)
    requires FlatMapResult(s, f).Success?
    ensures IsSubsequence(Map(FlatMapResult(s, f).value, key), Map(s, tag))
  {
    if s == [] {
    } else {
      var init := s[..|s| - 1];
      var x := s[|s| - 1];
      FlatMapResultAtMostOne(init, f, key, tag);
      var a := FlatMapResult(init, f).value;
      var last := f(x).value;
      assert s == init + [x];
      MapConcat(init, [x], tag);
      MapConcat(a, last, key);
      assert Map([x], tag) == [tag(x)];
      SubsequenceAppend(Map(a, key), Map(init, tag), tag(x));
      if last != [] {
        assert last[0] in last;
        assert Map(last, key) == [tag(x)];
      } else {
        assert Map(a + last, key) == Map(a, key);
      }
    }
  }

  /** A subsequence only holds elements of the longer sequence. */
  lemma {:induction false} SubsequenceMembers<T>(a: seq<T>, b: seq<T>, x: T)
    requires IsSubsequence(a, b) && x in a
    ensures x in b
    decreases |b|
  {
    assert b != [];
    if a[0] == b[0] {
      if x != a[0] {
        assert x in a[1..];
        SubsequenceMembers(a[1..], b[1..], x);
      }
    } else {
      SubsequenceMembers(a, b[1..], x);
    }
  }

  /** A subsequence of a sequence without duplicates has none either. */
  lemma {:induction false} SubsequenceNoDuplicates<T>(a: seq<T>, b: seq<T>)
    requires IsSubsequence(a, b) && NoDuplicates(b)
    ensures NoDuplicates(a)
    decreases |b|
  {
    if a != [] {
      assert NoDuplicates(b[1..]) by {
        forall i, j | 0 <= i < j < |b[1..]| ensures b[1..][i] != b[1..][j] {
          assert b[1..][i] == b[i + 1] && b[1..][j] == b[j + 1];
        }
      }
      if a[0] == b[0] {
        SubsequenceNoDuplicates(a[1..], b[1..]);
        forall i, j | 0 <= i < j < |a| ensures a[i] != a[j] {
          if i == 0 {
            assert a[j] == a[1..][j - 1];
            assert a[j] in a[1..];
            SubsequenceMembers(a[1..], b[1..], a[j]);
            var k :| 0 <= k < |b[1..]| && b[1..][k] == a[j];
            assert b[k + 1] == a[j];
          } else {
            assert a[i] == a[1..][i - 1] && a[j] == a[1..][j - 1];
          }
        }
      } else {
        SubsequenceNoDuplicates(a, b[1..]);
      }
    }
  }
}
