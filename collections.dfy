/** Sequence helpers shared by the entity lists and the upgrade pool: distinct
    elements, the order-keeping filter that a backward `splice` loop computes,
    and permutations. */
module Collections {

  predicate Distinct<T(==)>(s: seq<T>)
  {
    forall i, j :: 0 <= i < j < |s| ==> s[i] != s[j]
  }

  /** The elements of `s` whose `drop` flag is false, in their original order. */
  function Keep<T>(s: seq<T>, drop: seq<bool>): (r: seq<T>)
    requires |drop| == |s|
    ensures |r| <= |s|
    decreases |s|
  {
    if s == [] then [] else (if drop[0] then [] else [s[0]]) + Keep(s[1..], drop[1..])
  }

  /** An element survives exactly when some position holding it is not dropped. */
  lemma {:induction false} KeepMember<T>(s: seq<T>, drop: seq<bool>, x: T)
    requires |drop| == |s|
    ensures x in Keep(s, drop) <==> exists i :: 0 <= i < |s| && s[i] == x && !drop[i]
    decreases |s|
  {
    if s != [] {
      var s', d' := s[1..], drop[1..];
      KeepMember(s', d', x);
      assert Keep(s, drop) == (if drop[0] then [] else [s[0]]) + Keep(s', d');
      if x in Keep(s, drop) {
        if !drop[0] && x == s[0] {
          assert s[0] == x && !drop[0];
        } else {
          var i :| 0 <= i < |s'| && s'[i] == x && !d'[i];
          assert s[i + 1] == x && !drop[i + 1];
        }
      }
      if exists i :: 0 <= i < |s| && s[i] == x && !drop[i] {
        var i :| 0 <= i < |s| && s[i] == x && !drop[i];
        if i > 0 {
          assert s'[i - 1] == x && !d'[i - 1];
        }
      }
    }
  }

  /** The survivors come from the list. */
  lemma KeepSubset<T>(s: seq<T>, drop: seq<bool>)
    requires |drop| == |s|
    ensures forall x <- Keep(s, drop) :: x in s
  {
    forall x <- Keep(s, drop) ensures x in s {
      KeepMember(s, drop, x);
    }
  }

  /** Nothing dropped keeps everything. */
  lemma {:induction false} KeepNothingDropped<T>(s: seq<T>, drop: seq<bool>)
    requires |drop| == |s| && forall i :: 0 <= i < |drop| ==> !drop[i]
    ensures Keep(s, drop) == s
    decreases |s|
  {
    if s != [] {
      KeepNothingDropped(s[1..], drop[1..]);
    }
  }

  /** Filtering keeps the survivors distinct. */
  lemma {:induction false} KeepDistinct<T>(s: seq<T>, drop: seq<bool>)
    requires |drop| == |s| && Distinct(s)
    ensures Distinct(Keep(s, drop))
    decreases |s|
  {
    if s != [] {
      KeepDistinct(s[1..], drop[1..]);
      KeepMember(s[1..], drop[1..], s[0]);
      assert forall i :: 0 <= i < |s[1..]| ==> s[1..][i] != s[0];
    }
  }

  /** One step of a backward splice loop that has handled every index from `i + 1` on:
      the list `l` it holds still has element `i` at index `i`; splicing it out when dropped,
      or keeping it otherwise, gives the list with every index from `i` on handled. */
  lemma SpliceAt<T>(s: seq<T>, drop: seq<bool>, i: nat)
    requires |drop| == |s| && i < |s|
    ensures var l := s[..i + 1] + Keep(s[i + 1..], drop[i + 1..]);
      && i < |l| && l[i] == s[i]
      && (drop[i] ==> l[..i] + l[i + 1..] == s[..i] + Keep(s[i..], drop[i..]))
      && (!drop[i] ==> l == s[..i] + Keep(s[i..], drop[i..]))
  {
    var l := s[..i + 1] + Keep(s[i + 1..], drop[i + 1..]);
    assert s[i..][1..] == s[i + 1..];
    assert drop[i..][1..] == drop[i + 1..];
    assert s[..i + 1] == s[..i] + [s[i]];
    assert l[..i] == s[..i] && l[i + 1..] == Keep(s[i + 1..], drop[i + 1..]);
  }

  /** One step of a loop that replaces the elements of `a` by those of `b`, last first. */
  lemma ReplaceStep<T>(a: seq<T>, b: seq<T>, i: nat)
    requires i < |a| == |b|
    ensures (a[..i + 1] + b[i + 1..])[i := b[i]] == a[..i] + b[i..]
  {
    assert b[i..] == [b[i]] + b[i + 1..];
  }

  /** `s[i]` occurs nowhere else in `s`. */
  predicate UniqueAt<T(==)>(s: seq<T>, i: nat)
  {
    i < |s| && forall k :: 0 <= k < |s| && k != i ==> s[k] != s[i]
  }

  /** A list without repeats, stated one position at a time. */
  lemma DistinctIsUniqueAt<T>(s: seq<T>)
    ensures Distinct(s) <==> forall i :: 0 <= i < |s| ==> UniqueAt(s, i)
  {
    if forall i :: 0 <= i < |s| ==> UniqueAt(s, i) {
      forall i, j | 0 <= i < j < |s| ensures s[i] != s[j] {
        assert UniqueAt(s, j);
      }
    }
  }

  lemma {:induction false} DistinctCountsOnce<T>(s: seq<T>)
    requires Distinct(s)
    ensures forall x :: multiset(s)[x] <= 1
    decreases |s|
  {
    if s != [] {
      var rest := s[1..];
      DistinctCountsOnce(rest);
      assert s == [s[0]] + rest;
      assert multiset(s) == multiset{s[0]} + multiset(rest);
      assert forall k :: 0 <= k < |rest| ==> rest[k] != s[0];
      assert s[0] !in multiset(rest);
    }
  }

  lemma RepeatCountsTwice<T>(t: seq<T>, i: nat, j: nat)
    requires i < j < |t|
    ensures t[i] == t[j] ==> multiset(t)[t[i]] >= 2
  {
    var x := t[i];
    assert t == t[..j] + [t[j]] + t[j + 1..];
    assert x in t[..j] by { assert t[..j][i] == x; }
    assert multiset(t) == multiset(t[..j]) + multiset{t[j]} + multiset(t[j + 1..]);
  }

  /** A rearrangement of distinct elements is distinct. */
  lemma PermutationKeepsDistinct<T>(s: seq<T>, t: seq<T>)
    requires multiset(s) == multiset(t) && Distinct(s)
    ensures Distinct(t)
  {
    DistinctCountsOnce(s);
    forall i, j | 0 <= i < j < |t| ensures t[i] != t[j] {
      RepeatCountsTwice(t, i, j);
      assert multiset(s)[t[i]] <= 1;
    }
  }
}
