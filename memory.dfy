/** The A-memory of one ensemble member (the `dict.json` file): for every
    restraint name, the values of A that converged ("acceptA") and those that
    did not ("rejectA"), grouped by the formatted target.  This module holds
    the pure rules of run_brer/run_config.py and run_brer/debug.py: the median
    used to seed A, the seed rule, the record rule and the escalation of A. */
module BiasMemory {
  import opened Values

  /** A target as the memory keys it.  The source formats the target with
      '{:2f}', six decimals; the key is the target in millionths, rounded. */
  type Key = int

  function TargetKey(t: real): Key
  {
    (t * 1000000.0 + 0.5).Floor
  }

  /** The memory of one restraint: A values by target key. */
  datatype Entry = Entry(accept: map<Key, seq<real>>, reject: map<Key, seq<real>>)

  type Memory = map<string, Entry>

  /** A training attempt whose log reports more samples than this did not converge. */
  const SampleThreshold: real := 400.0

  /** The factor applied to A after a failed attempt, and to a rejected median. */
  const Escalation: real := 1.1

  /** The retrain count at which the source computes 2*A instead of 1.1*A. */
  const DoublingCount: int := 5

  /** Every list in the memory holds at least one value: the first record of a
      key creates it with one element and later records only append. */
  predicate WellFormedEntry(e: Entry)
  {
    (forall k :: k in e.accept ==> |e.accept[k]| > 0) &&
    (forall k :: k in e.reject ==> |e.reject[k]| > 0)
  }

  predicate WellFormed(m: Memory)
  {
    forall n :: n in m ==> WellFormedEntry(m[n])
  }

  /** A memory as this workflow writes it to dict.json: no empty list. */
  type WellFormedMemory = m: Memory | WellFormed(m) witness map[]

  /** The memory `__datDict` builds when dict.json is empty: an empty
      acceptA and rejectA for every restraint name. */
  function InitMemory(names: seq<string>): (m: Memory)
    ensures m.Keys == set n | n in names
    ensures forall n :: n in m ==> m[n] == Entry(map[], map[])
    ensures WellFormed(m)
  {
    map n | n in names :: Entry(map[], map[])
  }

  // ---------------------------------------------------------------- median

  predicate Sorted(s: seq<real>)
  {
    forall i, j :: 0 <= i < j < |s| ==> s[i] <= s[j]
  }

  /** A sorted sequence stays sorted when a value no larger than all of it is put in front. */
  lemma SortedCons(h: real, t: seq<real>)
    requires Sorted(t)
    requires forall y :: y in multiset(t) ==> h <= y
    ensures Sorted([h] + t)
  {
    var r := [h] + t;
    forall i, j | 0 <= i < j < |r| ensures r[i] <= r[j] {
      if i == 0 { assert r[j] == t[j - 1] && t[j - 1] in multiset(t); }
      else { assert r[i] == t[i - 1] && r[j] == t[j - 1]; }
    }
  }

  /** The tail of a sorted sequence is sorted and bounded below by its head. */
  lemma SortedTail(s: seq<real>)
    requires Sorted(s) && s != []
    ensures Sorted(s[1..])
    ensures forall y :: y in multiset(s[1..]) ==> s[0] <= y
  {
    forall y | y in multiset(s[1..]) ensures s[0] <= y {
      var i :| 0 <= i < |s[1..]| && s[1..][i] == y;
      assert s[0] <= s[i + 1];
    }
  }

  /** Insert `x` into a sorted sequence. */
  function Insert(x: real, s: seq<real>): (r: seq<real>)
    requires Sorted(s)
    ensures Sorted(r) && multiset(r) == multiset(s) + multiset{x} && |r| == |s| + 1
    decreases |s|
  {
    if s == [] then [x]
    else if x <= s[0] then
      SortedTail(s);
      assert s == [s[0]] + s[1..];
      assert multiset(s) == multiset{s[0]} + multiset(s[1..]);
      SortedCons(x, s);
      [x] + s
    else
      SortedTail(s);
      var t := Insert(x, s[1..]);
      SortedCons(s[0], t);
      assert s == [s[0]] + s[1..];
      [s[0]] + t
  }

  /** `np.sort`: an ordered permutation of the values. */
  function Sort(s: seq<real>): (r: seq<real>)
    ensures Sorted(r) && multiset(r) == multiset(s) && |r| == |s|
    decreases |s|
  {
    if s == [] then []
    else
      assert s == [s[0]] + s[1..];
      Insert(s[0], Sort(s[1..]))
  }

  /** The head of a sorted sequence is its least value. */
  lemma SortedHead(s: seq<real>)
    requires Sorted(s) && s != []
    ensures forall y :: y in multiset(s) ==> s[0] <= y
  {
    forall y | y in multiset(s) ensures s[0] <= y {
      var i :| 0 <= i < |s| && s[i] == y;
    }
  }

  /** Dropping the head drops one copy of it from the values. */
  lemma MultisetTail(s: seq<real>)
    requires s != []
    ensures multiset(s[1..]) == multiset(s) - multiset{s[0]}
  {
    assert s == [s[0]] + s[1..];
  }

  /** Two sorted sequences with the same values are equal: sorting is
      determined by the multiset of values alone. */
  lemma {:induction false} SortedUnique(a: seq<real>, b: seq<real>)
    requires Sorted(a) && Sorted(b) && multiset(a) == multiset(b)
    ensures a == b
    decreases |a|
  {
    assert |a| == |multiset(a)| == |b|;
    if a != [] {
      assert a[0] == b[0] by {
        SortedHead(a);
        SortedHead(b);
        assert a[0] in multiset(b) && b[0] in multiset(a);
      }
      assert Sorted(a[1..]) && Sorted(b[1..]) by {
        SortedTail(a);
        SortedTail(b);
      }
      assert multiset(a[1..]) == multiset(b[1..]) by {
        MultisetTail(a);
        MultisetTail(b);
      }
      SortedUnique(a[1..], b[1..]);
      assert a == [a[0]] + a[1..];
      assert b == [b[0]] + b[1..];
    }
  }

  /** `np.median` of the sorted values: the middle value, or the mean of the two
      middle values when there is an even number of them. */
  function Median(s: seq<real>): real
    requires |s| > 0
  {
    var t := Sort(s);
    var n := |t|;
    if n % 2 == 1 then t[n / 2] else (t[n / 2 - 1] + t[n / 2]) / 2.0
  }

  /** The median does not depend on the order in which A values were recorded. */
  lemma MedianOfPermutation(s: seq<real>, u: seq<real>)
    requires |s| > 0 && multiset(s) == multiset(u)
    ensures |u| > 0 && Median(s) == Median(u)
  {
    assert |s| == |multiset(s)| == |u|;
    SortedUnique(Sort(s), Sort(u));
  }

  /** The median lies between two recorded values, and is itself one of them
      when the number of values is odd. */
  lemma MedianWithinValues(s: seq<real>)
    requires |s| > 0
    ensures exists i, j :: 0 <= i < |s| && 0 <= j < |s| && s[i] <= Median(s) <= s[j]
    ensures |s| % 2 == 1 ==> Median(s) in s
  {
    var t := Sort(s);
    var n := |t|;
    var lo := if n % 2 == 1 then n / 2 else n / 2 - 1;
    assert t[lo] <= Median(s) <= t[n / 2];
    assert t[lo] in multiset(s) && t[n / 2] in multiset(s);
    var i :| 0 <= i < |s| && s[i] == t[lo];
    var j :| 0 <= j < |s| && s[j] == t[n / 2];
  }

  /** The median of values already in order is read off directly. */
  lemma MedianOfSorted(s: seq<real>)
    requires |s| > 0 && Sorted(s)
    ensures Median(s) == if |s| % 2 == 1 then s[|s| / 2] else (s[|s| / 2 - 1] + s[|s| / 2]) / 2.0
  {
    SortedUnique(Sort(s), s);
  }

  /** Three values in order have the middle one as median. */
  lemma {:induction false} MedianOfThree(s: seq<real>)
    requires |s| == 3 && s[0] <= s[1] <= s[2]
    ensures Median(s) == s[1]
  {
    assert Sorted(s) by {
      forall i, j | 0 <= i < j < 3 ensures s[i] <= s[j] { }
    }
    MedianOfSorted(s);
  }

  // ------------------------------------------------------------------ seeding

  /** The seed rule of `__train` and `__retrain`: the new A for a restraint
      whose current target has key `key`, or None when A is left alone.  A is
      set only when both an accept list and a reject list exist for the key:
      the median of the accepted values, times 1.1 when that median was
      itself rejected. */
  function Seed(e: Entry, key: Key): Option<real>
    requires WellFormedEntry(e)
  {
    if key !in e.accept then None
    else
      var m := Median(e.accept[key]);
      if key !in e.reject then None
      else if m in e.reject[key] then Some(Escalation * m)
      else Some(m)
  }

  /** A is seeded exactly when both lists exist; a seeded A is never a median
      that was rejected (unless that median is 0, which 1.1 leaves alone). */
  lemma SeedCases(e: Entry, key: Key)
    requires WellFormedEntry(e)
    ensures Seed(e, key).Some? <==> key in e.accept && key in e.reject
    ensures Seed(e, key).Some? ==>
              var m := Median(e.accept[key]);
              (m in e.reject[key] ==> Seed(e, key).value == 1.1 * m) &&
              (m !in e.reject[key] ==> Seed(e, key).value == m)
    ensures Seed(e, key).Some? && Median(e.accept[key]) in e.reject[key] && Median(e.accept[key]) != 0.0 ==>
              Seed(e, key).value != Median(e.accept[key])
  {
  }

  // ---------------------------------------------------------------- recording

  /** Append `a` to the list of `k`, creating the list when it is absent. */
  function Append(m: map<Key, seq<real>>, k: Key, a: real): (r: map<Key, seq<real>>)
    ensures r.Keys == m.Keys + {k}
    ensures k in m ==> r[k] == m[k] + [a]
    ensures k !in m ==> r[k] == [a]
    ensures forall k' :: k' in m && k' != k ==> r[k'] == m[k']
  {
    m[k := (if k in m then m[k] else []) + [a]]
  }

  /** The record rule of `__datDict`: the A used for an attempt whose log
      reports `count` samples at a target with key `key` goes to rejectA when
      the attempt did not converge (count above 400) and to acceptA otherwise. */
  function Record(e: Entry, key: Key, a: real, count: real): Entry
  {
    if count > SampleThreshold then e.(reject := Append(e.reject, key, a))
    else e.(accept := Append(e.accept, key, a))
  }

  /** Every list the entry had is a prefix of the list it has afterwards. */
  predicate Extends(old_: map<Key, seq<real>>, new_: map<Key, seq<real>>)
  {
    forall k :: k in old_ ==> k in new_ && old_[k] <= new_[k]
  }

  /** Growing lists twice is growing them once. */
  lemma ExtendsTrans(a: map<Key, seq<real>>, b: map<Key, seq<real>>, c: map<Key, seq<real>>)
    requires Extends(a, b) && Extends(b, c)
    ensures Extends(a, c)
  {
    forall k | k in a ensures k in c && a[k] <= c[k] {
      assert b[k][..|a[k]|] == a[k];
      assert c[k][..|b[k]|] == b[k];
      assert c[k][..|a[k]|] == b[k][..|a[k]|];
    }
  }

  /** Recording is append-only: exactly one list, chosen by the sample count,
      grows by exactly the recorded A; every other list is unchanged, and the
      memory stays well formed. */
  lemma RecordAppendOnly(e: Entry, key: Key, a: real, count: real)
    ensures Extends(e.accept, Record(e, key, a, count).accept)
    ensures Extends(e.reject, Record(e, key, a, count).reject)
    ensures count > 400.0 ==> Record(e, key, a, count).accept == e.accept &&
                              Record(e, key, a, count).reject[key] ==
                                (if key in e.reject then e.reject[key] else []) + [a]
    ensures count <= 400.0 ==> Record(e, key, a, count).reject == e.reject &&
                               Record(e, key, a, count).accept[key] ==
                                 (if key in e.accept then e.accept[key] else []) + [a]
    ensures WellFormedEntry(e) ==> WellFormedEntry(Record(e, key, a, count))
  {
  }

  /** What recording then seeding gives: once a converged A is the only
      accepted value for a key with a reject list that does not hold it, the
      next seed for that key is exactly that A. */
  lemma SeedAfterRecord(e: Entry, key: Key, a: real, count: real)
    requires WellFormedEntry(e)
    requires count <= 400.0 && key !in e.accept && key in e.reject && a !in e.reject[key]
    ensures WellFormedEntry(Record(e, key, a, count))
    ensures Seed(Record(e, key, a, count), key) == Some(a)
  {
    assert Record(e, key, a, count).accept[key] == [a];
    assert Median([a]) == a by { SortedUnique(Sort([a]), [a]); }
  }

  /** The A stored after an attempt that did not converge: 1.1 times A, except
      at retrain count 5 where the source computes 2*A into a local and stores
      nothing, so A is unchanged. */
  function Escalated(a: real, retrainCount: int): (r: real)
    ensures retrainCount == DoublingCount ==> r == a
    ensures retrainCount != DoublingCount ==> r == 1.1 * a
    ensures a > 0.0 ==> r >= a
  {
    if retrainCount == DoublingCount then a else Escalation * a
  }
}
