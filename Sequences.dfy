/** Sequence utilities shared by both backends: first-index search,
    order-preserving de-duplication, dropping absent values, and substring
    search on strings. */
module Sequences {
  import opened Wrappers

  /** The set of elements of `s`. */
  function Elements<T>(s: seq<T>): set<T> {
    set x | x in s
  }

  /** No element occurs twice in `s`. */
  predicate NoDuplicates<T(==)>(s: seq<T>) {
    forall i, j :: 0 <= i < j < |s| ==> s[i] != s[j]
  }

  /** The index of the first occurrence of `x` in `s`, if any. */
  function IndexOf<T(==)>(s: seq<T>, x: T): (r: Option<nat>)
    ensures r.None? <==> x !in s
    ensures r.Some? ==> r.value < |s| && s[r.value] == x && x !in s[..r.value]
  {
    if |s| == 0 then None
    else if s[0] == x then Some(0)
    else
      match IndexOf(s[1..], x)
      case None => None
      case Some(k) =>
        assert s[1..][..k] == s[1..k + 1];
        Some(k + 1)
  }

  /** The first element whose key equals `k`, if any (Kotlin `find`,
      Swift `first(where:)` with an equality test). */
  function FindFirst<T(==), K(==)>(s: seq<T>, key: T -> K, k: K): (r: Option<T>)
    ensures r.None? <==> forall i :: 0 <= i < |s| ==> key(s[i]) != k
    ensures r.Some? ==> exists i :: (0 <= i < |s| && s[i] == r.value && key(s[i]) == k
                                     && forall j :: 0 <= j < i ==> key(s[j]) != k)
  {
    if |s| == 0 then None
    else if key(s[0]) == k then Some(s[0])
    else
      var r := FindFirst(s[1..], key, k);
      assert r.Some? ==> exists i :: (0 <= i < |s[1..]| && s[1..][i] == r.value && key(s[1..][i]) == k
                                      && forall j :: 0 <= j < i ==> key(s[1..][j]) != k);
      assert forall i :: 0 <= i < |s[1..]| ==> s[1..][i] == s[i + 1];
      r
  }

  /** `s` with repeated elements removed, keeping each element's first
      occurrence. Defined one element at a time from the left, the way a
      filter with a `seen` set walks the sequence. */
  function Dedup<T(==)>(s: seq<T>): (r: seq<T>)
    ensures NoDuplicates(r)
    ensures Elements(r) == Elements(s)
    ensures |r| <= |s|
  {
    if |s| == 0 then []
    else
      var d := Dedup(s[..|s| - 1]);
      assert s == s[..|s| - 1] + [s[|s| - 1]];
      assert Elements(s) == Elements(s[..|s| - 1]) + {s[|s| - 1]};
      if s[|s| - 1] in d then d else d + [s[|s| - 1]]
  }

  /** Dedup of a one-element extension appends the new element exactly when
      it has not been seen before. */
  lemma DedupSnoc<T>(s: seq<T>, x: T)
    ensures Dedup(s + [x]) == if x in s then Dedup(s) else Dedup(s) + [x]
  {
    assert (s + [x])[..|s + [x]| - 1] == s;
    assert x in Dedup(s) <==> x in Elements(Dedup(s));
  }

  /** Dedup keeps elements in the order of their first occurrences. */
  lemma {:induction false} DedupKeepsFirstOccurrenceOrder<T>(s: seq<T>, i: nat, j: nat)
    requires i < j < |Dedup(s)|
    ensures Dedup(s)[i] in s && Dedup(s)[j] in s
    ensures IndexOf(s, Dedup(s)[i]).value < IndexOf(s, Dedup(s)[j]).value
  {
    var d := Dedup(s);
    assert d[i] in Elements(d) && d[j] in Elements(d);
    var n := |s| - 1;
    var p := s[..n];
    assert s == p + [s[n]];
    var dp := Dedup(p);
    if j < |dp| {
      DedupKeepsFirstOccurrenceOrder(p, i, j);
      assert dp[i] in Elements(dp) && dp[j] in Elements(dp);
      IndexOfPrefix(p, s[n], dp[i]);
      IndexOfPrefix(p, s[n], dp[j]);
    } else {
      // d[j] is the last element, first seen at position n
      assert d == dp + [s[n]] && d[j] == s[n] && s[n] !in dp;
      assert s[n] !in Elements(dp);
      assert d[i] == dp[i] && dp[i] in Elements(dp);
      IndexOfPrefix(p, s[n], dp[i]);
      IndexOfLast(p, s[n]);
    }
  }

  /** Searching an extended sequence for an element already present in the
      prefix finds it where the prefix has it. */
  lemma IndexOfPrefix<T>(p: seq<T>, y: T, x: T)
    requires x in p
    ensures IndexOf(p + [y], x) == IndexOf(p, x)
  {
    var k := IndexOf(p, x).value;
    var s := p + [y];
    var r := IndexOf(s, x);
    assert s[k] == x;
    assert x in s;
    assert s[..k] == p[..k];
  }

  /** An element that is new at the end of a sequence is found at the end. */
  lemma IndexOfLast<T>(p: seq<T>, y: T)
    requires y !in p
    ensures IndexOf(p + [y], y) == Some(|p|)
  {
    var s := p + [y];
    assert s[..|p|] == p;
  }

  /** The present values of `s`, in order (Kotlin `mapNotNull`, Swift
      `compactMap`). */
  function Somes<T>(s: seq<Option<T>>): (r: seq<T>)
    ensures |r| <= |s|
    ensures forall i :: 0 <= i < |r| ==> Some(r[i]) in s
    ensures forall i :: 0 <= i < |s| && s[i].Some? ==> s[i].value in r
  {
    if |s| == 0 then []
    else
      assert s == [s[0]] + s[1..];
      match s[0]
      case None => Somes(s[1..])
      case Some(x) => [x] + Somes(s[1..])
  }

  /** Dropping absent values commutes with concatenation, so the present
      values keep their order and their repeats. */
  lemma {:induction false} SomesConcat<T>(a: seq<Option<T>>, b: seq<Option<T>>)
    ensures Somes(a + b) == Somes(a) + Somes(b)
    decreases |a|
  {
    if |a| == 0 {
      assert a + b == b;
    } else {
      assert (a + b)[0] == a[0];
      assert (a + b)[1..] == a[1..] + b;
      SomesConcat(a[1..], b);
    }
  }

  /** On one element: an absent value is dropped, a present one kept. */
  lemma SomesSingletons<T>(x: T)
    ensures |Somes<T>([None])| == 0
    ensures Somes([Some(x)]) == [x]
  {
  }

  /** `sub` occurs in `s` starting at index `i`. */
  ghost predicate OccursAt(s: string, sub: string, i: nat) {
    i + |sub| <= |s| && s[i..i + |sub|] == sub
  }

  /** `sub` occurs somewhere in `s`. */
  ghost predicate HasSubstring(s: string, sub: string) {
    exists i: nat :: OccursAt(s, sub, i)
  }

  /** Substring search (Kotlin `String.contains`). */
  function Contains(s: string, sub: string): (r: bool)
    ensures r <==> HasSubstring(s, sub)
    decreases |s|
  {
    if |s| < |sub| then
      assert forall i: nat :: !OccursAt(s, sub, i);
      false
    else if s[..|sub|] == sub then
      assert OccursAt(s, sub, 0);
      true
    else
      var rest := Contains(s[1..], sub);
      assert forall i: nat :: OccursAt(s[1..], sub, i) <==> OccursAt(s, sub, i + 1) by {
        forall i: nat ensures OccursAt(s[1..], sub, i) <==> OccursAt(s, sub, i + 1) {
          if i + 1 + |sub| <= |s| {
            assert s[1..][i..i + |sub|] == s[i + 1..i + 1 + |sub|];
          }
        }
      }
      assert !OccursAt(s, sub, 0);
      assert HasSubstring(s, sub) ==> HasSubstring(s[1..], sub) by {
        if HasSubstring(s, sub) {
          var i: nat :| OccursAt(s, sub, i);
          assert i != 0;
          assert OccursAt(s[1..], sub, i - 1);
        }
      }
      rest
  }
}
