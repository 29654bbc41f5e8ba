/** The list operations the game performs on its entity arrays:
    `removeAll(where:)`, removal during reversed enumeration and the
    "append every survivor to a fresh list" loops all keep, in order,
    the elements that pass a test. */
module Sequences {

  /** The elements of `s` that satisfy `p(_, c)`, in their original order.
      `c` carries the context of the test (a margin, the player's frame, ...). */
  function Keep<T, C>(s: seq<T>, p: (T, C) -> bool, c: C): (r: seq<T>)
    ensures |r| <= |s|
  {
    if s == [] then []
    else (if p(s[0], c) then [s[0]] else []) + Keep(s[1..], p, c)
  }

  /** Exactly the elements of `s` that pass the test survive. */
  lemma {:induction false} KeepMembers<T, C>(s: seq<T>, p: (T, C) -> bool, c: C)
    ensures forall x :: x in Keep(s, p, c) <==> x in s && p(x, c)
  {
    if s != [] {
      KeepMembers(s[1..], p, c);
      assert s == [s[0]] + s[1..];
    }
  }

  /** Filtering a concatenation filters each part. */
  lemma {:induction false} KeepConcat<T, C>(a: seq<T>, b: seq<T>, p: (T, C) -> bool, c: C)
    ensures Keep(a + b, p, c) == Keep(a, p, c) + Keep(b, p, c)
  {
    if a == [] {
      assert a + b == b;
    } else {
      var head := if p(a[0], c) then [a[0]] else [];
      assert (a + b)[0] == a[0];
      assert (a + b)[1..] == a[1..] + b;
      KeepConcat(a[1..], b, p, c);
      assert Keep(a + b, p, c) == head + (Keep(a[1..], p, c) + Keep(b, p, c));
      assert Keep(a, p, c) == head + Keep(a[1..], p, c);
    }
  }

  /** Filtering a list with one more element at the end. */
  lemma KeepSnoc<T, C>(s: seq<T>, x: T, p: (T, C) -> bool, c: C)
    ensures Keep(s + [x], p, c) == Keep(s, p, c) + (if p(x, c) then [x] else [])
  {
    KeepConcat(s, [x], p, c);
    assert Keep([x], p, c) == (if p(x, c) then [x] else []) + Keep([x][1..], p, c);
  }

  /** Filtering one element more of a prefix of `s`. */
  lemma KeepPrefixStep<T, C>(s: seq<T>, i: nat, p: (T, C) -> bool, c: C)
    requires i < |s|
    ensures Keep(s[..i + 1], p, c) == Keep(s[..i], p, c) + (if p(s[i], c) then [s[i]] else [])
  {
    assert s[..i + 1] == s[..i] + [s[i]];
    KeepSnoc(s[..i], s[i], p, c);
  }

  /** Filtering a suffix of `s` takes its first element, or not. */
  lemma KeepFrom<T, C>(s: seq<T>, i: nat, p: (T, C) -> bool, c: C)
    requires i < |s|
    ensures Keep(s[i..], p, c) == (if p(s[i], c) then [s[i]] else []) + Keep(s[i + 1..], p, c)
  {
    assert s[i..][1..] == s[i + 1..];
  }

  /** Removing the element at `i` from `s[..i + 1] + rest`. */
  lemma DropLastOfPrefix<T>(s: seq<T>, i: nat, rest: seq<T>)
    requires i < |s|
    ensures var t := s[..i + 1] + rest; t[..i] + t[i + 1..] == s[..i] + rest
    ensures s[..i + 1] + rest == s[..i] + ([s[i]] + rest)
  {
    var t := s[..i + 1] + rest;
    assert t[..i] == s[..i];
    assert t[i + 1..] == rest;
    assert s[..i + 1] == s[..i] + [s[i]];
  }

  /** Removing the element just after the prefix `p` from `p + s[i..]`. */
  lemma DropFirstOfSuffix<T>(p: seq<T>, s: seq<T>, i: nat)
    requires i < |s|
    ensures var t := p + s[i..]; t[|p|] == s[i] && t[..|p|] + t[|p| + 1..] == p + s[i + 1..]
    ensures p + s[i..] == (p + [s[i]]) + s[i + 1..]
  {
    var t := p + s[i..];
    assert t[..|p|] == p;
    assert t[|p| + 1..] == s[i + 1..];
    assert s[i..] == [s[i]] + s[i + 1..];
  }

  /** Something is removed exactly when some element fails the test. */
  lemma {:induction false} KeepShrinksIff<T, C>(s: seq<T>, p: (T, C) -> bool, c: C)
    ensures |Keep(s, p, c)| < |s| <==> exists k :: 0 <= k < |s| && !p(s[k], c)
    ensures |Keep(s, p, c)| == |s| <==> Keep(s, p, c) == s
  {
    if s != [] {
      KeepShrinksIff(s[1..], p, c);
      if !p(s[0], c) {
        assert |Keep(s, p, c)| < |s|;
      } else if exists k :: 0 <= k < |s| && !p(s[k], c) {
        var k :| 0 <= k < |s| && !p(s[k], c);
        assert !p(s[1..][k - 1], c);
      }
    }
  }

  /** `idx` lists, in increasing order, positions of `s` that spell out `r`. */
  ghost predicate Embeds<T>(r: seq<T>, s: seq<T>, idx: seq<nat>)
  {
    |idx| == |r| &&
    (forall i :: 0 <= i < |idx| ==> idx[i] < |s| && r[i] == s[idx[i]]) &&
    (forall i, j :: 0 <= i < j < |idx| ==> idx[i] < idx[j])
  }

  /** `r` is `s` with some elements left out and the rest in their order. */
  ghost predicate IsSubsequence<T>(r: seq<T>, s: seq<T>)
  {
    exists idx :: Embeds(r, s, idx)
  }

  /** An embedding into the tail of `s` is an embedding into `s`, one place later. */
  lemma EmbedsInTail<T>(r: seq<T>, s: seq<T>, rest: seq<nat>) returns (shifted: seq<nat>)
    requires s != [] && Embeds(r, s[1..], rest)
    ensures Embeds(r, s, shifted)
    ensures forall i :: 0 <= i < |shifted| ==> shifted[i] > 0
  {
    shifted := seq(|rest|, i requires 0 <= i < |rest| => rest[i] + 1);
    forall i | 0 <= i < |shifted|
      ensures shifted[i] < |s| && r[i] == s[shifted[i]]
    {
      assert s[shifted[i]] == s[1..][rest[i]];
    }
  }

  /** An embedding that avoids position 0 extends by the first element of `s`. */
  lemma EmbedsCons<T>(r: seq<T>, s: seq<T>, idx: seq<nat>)
    requires s != [] && Embeds(r, s, idx)
    requires forall i :: 0 <= i < |idx| ==> idx[i] > 0
    ensures Embeds([s[0]] + r, s, [0] + idx)
  {
    var r' := [s[0]] + r;
    var idx' := [0] + idx;
    forall i | 1 <= i < |idx'|
      ensures idx'[i] == idx[i - 1] && r'[i] == r[i - 1]
    {
    }
  }

  /** Survivors of a filter keep their relative order. */
  lemma {:induction false} KeepIsSubsequence<T, C>(s: seq<T>, p: (T, C) -> bool, c: C)
    ensures IsSubsequence(Keep(s, p, c), s)
  {
    if s == [] {
      assert Embeds<T>([], s, []);
    } else {
      var tail := Keep(s[1..], p, c);
      KeepIsSubsequence(s[1..], p, c);
      var rest :| Embeds(tail, s[1..], rest);
      var shifted := EmbedsInTail(tail, s, rest);
      if p(s[0], c) {
        EmbedsCons(tail, s, shifted);
        assert Keep(s, p, c) == [s[0]] + tail;
      } else {
        assert Keep(s, p, c) == tail;
      }
    }
  }

  /** A relation that holds between every earlier and later element of `s`
      still holds in any subsequence of `s`. */
  lemma SubsequencePairwise<T>(r: seq<T>, s: seq<T>, rel: (T, T) -> bool)
    requires IsSubsequence(r, s)
    requires forall i, j :: 0 <= i < j < |s| ==> rel(s[i], s[j])
    ensures forall i, j :: 0 <= i < j < |r| ==> rel(r[i], r[j])
  {
    var idx :| Embeds(r, s, idx);
    forall i, j | 0 <= i < j < |r|
      ensures rel(r[i], r[j])
    {
      assert r[i] == s[idx[i]] && r[j] == s[idx[j]] && idx[i] < idx[j];
    }
  }
}
