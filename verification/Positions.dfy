/**
 A ticket's place in its column: a key between its neighbours' keys. A key is a
 fraction written in base 62 without a trailing zero, and keys compare as strings
 do, so there is always a key between two others.
 */
module Positions {
  import opened Wrappers

  const BASE: nat := 62
  const POSITION_REBALANCE_LENGTH: nat := 48

  type Key = seq<nat>

  /** Digits of the alphabet, and no trailing zero. */
  predicate Digits(k: Key) {
    (forall d :: d in k ==> d < BASE) && (k != [] ==> k[|k| - 1] != 0)
  }

  predicate Valid(k: Key) {
    k != [] && Digits(k)
  }

  /** String order: the first digit that differs decides, and a prefix comes first. */
  predicate Less(a: Key, b: Key) {
    if b == [] then false
    else if a == [] then true
    else a[0] < b[0] || (a[0] == b[0] && Less(a[1..], b[1..]))
  }

  lemma {:induction false} Irreflexive(a: Key)
    ensures !Less(a, a)
  {
    if a != [] {
      Irreflexive(a[1..]);
    }
  }

  lemma {:induction false} Transitive(a: Key, b: Key, c: Key)
    requires Less(a, b) && Less(b, c)
    ensures Less(a, c)
  {
    if a != [] && a[0] == b[0] && b[0] == c[0] {
      Transitive(a[1..], b[1..], c[1..]);
    }
  }

  lemma {:induction false} Total(a: Key, b: Key)
    ensures a == b || Less(a, b) || Less(b, a)
  {
    if a != [] && b != [] && a[0] == b[0] {
      Total(a[1..], b[1..]);
      assert a == [a[0]] + a[1..] && b == [b[0]] + b[1..];
    }
  }

  lemma Asymmetric(a: Key, b: Key)
    requires Less(a, b)
    ensures !Less(b, a) && a != b
  {
    Irreflexive(a);
    if Less(b, a) {
      Transitive(a, b, a);
    }
  }

  // ── the key between two others ─────────────────────────────────────────────

  /** Below a bound, if there is one. */
  predicate Below(a: Key, b: Option<Key>) {
    b.None? || Less(a, b.value)
  }

  /** `a` is a key or empty (no lower neighbour); `b` a key or absent. */
  predicate Gap(a: Key, b: Option<Key>) {
    Digits(a) && (b.Some? ==> Valid(b.value)) && Below(a, b)
  }

  function Tail(k: Key): Key {
    if k == [] then [] else k[1..]
  }

  function Head(k: Key): nat {
    if k == [] then 0 else k[0]
  }

  /** Half way between two keys, on as few digits as it can. */
  function Midpoint(a: Key, b: Option<Key>): (m: Key)
    requires Gap(a, b)
    ensures Valid(m) && Less(a, m) && Below(m, b)
    decreases |a| + (if b.Some? then |b.value| + 1 else 0)
  {
    if b.Some? && Head(a) == b.value[0] then
      TailsGap(a, b.value);
      var rest := Midpoint(Tail(a), Some(b.value[1..]));
      var m := [b.value[0]] + rest;
      TailDigits(b.value);
      PrependDigit(b.value[0], rest);
      PrependLess(a, rest, m);
      assert m[1..] == rest;
      m
    else
      var low := Head(a);
      var high := if b.Some? then b.value[0] else BASE;
      assert low < high by { TailDigits(a); if b.Some? { HeadsApart(a, b.value); } }
      if high - low > 1 then
        var m := [(low + high + 1) / 2];
        assert low < m[0] < high && high <= BASE by { if b.Some? { TailDigits(b.value); } }
        m
      else if b.Some? && |b.value| > 1 then
        var m := [b.value[0]];
        assert b.value[1..] != [] && m[0] < BASE by { TailDigits(b.value); }
        m
      else
        TailDigits(a);
        var rest := Midpoint(Tail(a), None);
        var m := [low] + rest;
        PrependDigit(low, rest);
        PrependLess(a, rest, m);
        m
  }

  lemma TailDigits(a: Key)
    requires Digits(a)
    ensures Digits(Tail(a)) && Head(a) < BASE
  {
    if a != [] {
      assert forall d :: d in a[1..] ==> d in a;
      assert a[0] in a;
    }
  }

  lemma HeadsApart(a: Key, b: Key)
    requires Less(a, b) && Digits(a) && Valid(b) && Head(a) != b[0]
    ensures Head(a) < b[0]
  {
  }

  lemma TailsGap(a: Key, b: Key)
    requires Gap(a, Some(b)) && Head(a) == b[0]
    ensures Gap(Tail(a), Some(b[1..]))
  {
    TailDigits(a);
    TailDigits(b);
    if a == [] {
      assert b[0] == 0 && b[|b| - 1] != 0;
      assert |b| > 1;
    } else {
      assert Less(a[1..], b[1..]);
    }
  }

  lemma PrependDigit(d: nat, rest: Key)
    requires d < BASE && Valid(rest)
    ensures Valid([d] + rest)
  {
    var m := [d] + rest;
    assert m[|m| - 1] == rest[|rest| - 1];
  }

  lemma PrependLess(a: Key, rest: Key, m: Key)
    requires Less(Tail(a), rest) && m == [Head(a)] + rest
    ensures Less(a, m)
  {
    assert m[1..] == rest;
  }

  function Bound(after: Option<Key>): Key {
    if after.Some? then after.value else []
  }

  predicate OpenGap(after: Option<Key>, before: Option<Key>) {
    (after.Some? ==> Valid(after.value)) && (before.Some? ==> Valid(before.value)) &&
    (after.Some? && before.Some? ==> Less(after.value, before.value))
  }

  predicate Inside(k: Key, after: Option<Key>, before: Option<Key>) {
    (after.Some? ==> Less(after.value, k)) && (before.Some? ==> Less(k, before.value))
  }

  /** The key strictly between two neighbours, either of which may be missing. */
  function Between(after: Option<Key>, before: Option<Key>): (k: Key)
    requires OpenGap(after, before)
    ensures Valid(k) && Inside(k, after, before)
  {
    Midpoint(Bound(after), before)
  }

  predicate Ascending(ks: seq<Key>) {
    forall i, j :: 0 <= i < j < |ks| ==> Less(ks[i], ks[j])
  }

  /** `n` ascending keys strictly between two neighbours. */
  function KeysBetween(after: Option<Key>, before: Option<Key>, n: nat): (ks: seq<Key>)
    requires OpenGap(after, before)
    ensures |ks| == n
    decreases n
  {
    if n == 0 then []
    else
      var k := Between(after, before);
      if before.None? then [k] + KeysBetween(Some(k), None, n - 1)
      else if after.None? then KeysBetween(None, Some(k), n - 1) + [k]
      else KeysBetween(after, Some(k), n / 2) + [k] + KeysBetween(Some(k), before, n - n / 2 - 1)
  }

  lemma Widen(k: Key, mid: Key, after: Option<Key>, before: Option<Key>)
    requires Inside(mid, after, before)
    ensures Inside(k, after, Some(mid)) ==> Inside(k, after, before)
    ensures Inside(k, Some(mid), before) ==> Inside(k, after, before)
  {
    if before.Some? && Less(k, mid) {
      Transitive(k, mid, before.value);
    }
    if after.Some? && Less(mid, k) {
      Transitive(after.value, mid, k);
    }
  }

  /** How many of `n` keys come before the one that splits the gap. */
  function Before(after: Option<Key>, before: Option<Key>, n: nat): nat
    requires n > 0
  {
    if before.None? then 0 else if after.None? then n - 1 else n / 2
  }

  lemma NoKeys(after: Option<Key>, before: Option<Key>)
    requires OpenGap(after, before)
    ensures Ascending(KeysBetween(after, before, 0)) && AllInside(KeysBetween(after, before, 0), after, before)
  {
  }

  lemma SplitKeys(after: Option<Key>, before: Option<Key>, n: nat)
    requires OpenGap(after, before) && n > 0
    requires var k := Between(after, before);
             OpenGap(after, Some(k)) && OpenGap(Some(k), before)
    ensures var k, low := Between(after, before), Before(after, before, n);
            low < n &&
            KeysBetween(after, before, n) ==
              KeysBetween(after, Some(k), low) + [k] + KeysBetween(Some(k), before, n - 1 - low)
  {
    hide Between, OpenGap;
  }

  lemma SplitGap(after: Option<Key>, before: Option<Key>)
    requires OpenGap(after, before)
    ensures var k := Between(after, before);
            Valid(k) && Inside(k, after, before) && OpenGap(after, Some(k)) && OpenGap(Some(k), before)
  {
  }

  lemma JoinAscending(low: seq<Key>, k: Key, high: seq<Key>, after: Option<Key>, before: Option<Key>)
    requires Ascending(low) && Ascending(high)
    requires AllInside(low, after, Some(k)) && AllInside(high, Some(k), before)
    ensures Ascending(low + [k] + high)
  {
    var ks := low + [k] + high;
    forall i, j | 0 <= i < j < |ks|
      ensures Less(ks[i], ks[j])
    {
      if i < |low| && j > |low| {
        Transitive(low[i], k, high[j - |low| - 1]);
      }
    }
  }

  predicate AllInside(ks: seq<Key>, after: Option<Key>, before: Option<Key>) {
    forall i :: 0 <= i < |ks| ==> Valid(ks[i]) && Inside(ks[i], after, before)
  }

  lemma Widened(low: seq<Key>, k: Key, high: seq<Key>, after: Option<Key>, before: Option<Key>)
    requires Valid(k) && Inside(k, after, before) && AllInside(low, after, Some(k)) && AllInside(high, Some(k), before)
    ensures AllInside(low + [k] + high, after, before)
  {
    var ks := low + [k] + high;
    forall i | 0 <= i < |ks|
      ensures Valid(ks[i]) && Inside(ks[i], after, before)
    {
      Widen(ks[i], k, after, before);
    }
  }

  /** They are valid, ascending, and all inside the gap. */
  lemma {:induction false} KeysAreBetween(after: Option<Key>, before: Option<Key>, n: nat)
    requires OpenGap(after, before)
    ensures Ascending(KeysBetween(after, before, n)) && AllInside(KeysBetween(after, before, n), after, before)
    decreases n
  {
    hide Between, OpenGap, Ascending, AllInside, Less, Inside, Valid, KeysBetween;
    if n == 0 {
      NoKeys(after, before);
    } else {
      var k, low := Between(after, before), Before(after, before, n);
      SplitGap(after, before);
      SplitKeys(after, before, n);
      KeysAreBetween(after, Some(k), low);
      KeysAreBetween(Some(k), before, n - 1 - low);
      var lows, highs := KeysBetween(after, Some(k), low), KeysBetween(Some(k), before, n - 1 - low);
      JoinAscending(lows, k, highs, after, before);
      Widened(lows, k, highs, after, before);
    }
  }

  predicate NeedsRebalance(k: Key) {
    |k| > POSITION_REBALANCE_LENGTH
  }

  // ── the keys of a rewritten column ─────────────────────────────────────────

  /** The digits that halve what is left above: 31, 47, 55, 59 and 61 of 62. */
  const HALVES: seq<nat> := [31, 47, 55, 59, 61]

  /** The key of place `i`: every fifth place takes one more digit. */
  function NthKey(i: nat): (k: Key)
    ensures |k| == i / 5 + 1
    decreases i
  {
    if i < 5 then [HALVES[i]] else [61] + NthKey(i - 5)
  }

  lemma {:induction false} NthIsValid(i: nat)
    ensures Valid(NthKey(i))
    decreases i
  {
    if i >= 5 {
      NthIsValid(i - 5);
      PrependDigit(61, NthKey(i - 5));
    }
  }

  lemma {:induction false} NextNth(i: nat)
    requires Valid(NthKey(i))
    ensures Gap(NthKey(i), None) && Midpoint(NthKey(i), None) == NthKey(i + 1)
    decreases i
  {
    if i < 5 {
      assert Gap([], None) && Midpoint([], None) == [31];
      assert NthKey(5) == [61, 31] by { assert NthKey(0) == [31]; }
    } else {
      NthIsValid(i - 5);
      NextNth(i - 5);
      assert Tail(NthKey(i)) == NthKey(i - 5);
    }
  }

  lemma OneMoreKey(i: nat, n: nat)
    requires Valid(NthKey(i)) && n > 0
    ensures Valid(NthKey(i + 1))
    ensures KeysBetween(Some(NthKey(i)), None, n) == [NthKey(i + 1)] + KeysBetween(Some(NthKey(i + 1)), None, n - 1)
  {
    NextNth(i);
    NthIsValid(i + 1);
    hide Midpoint, NthKey;
    assert Between(Some(NthKey(i)), None) == NthKey(i + 1);
  }

  /** Above the key of a place come the keys of the next places. */
  lemma {:induction false} NthAfter(i: nat, n: nat)
    requires Valid(NthKey(i))
    ensures forall j :: 0 <= j < n ==> KeysBetween(Some(NthKey(i)), None, n)[j] == NthKey(i + 1 + j)
    decreases n
  {
    hide Between, NthKey, KeysBetween, Valid;
    if n > 0 {
      OneMoreKey(i, n);
      NthAfter(i + 1, n - 1);
    }
  }

  lemma FirstKey(n: nat)
    requires n > 0
    ensures Valid(NthKey(0)) && KeysBetween(None, None, n) == [NthKey(0)] + KeysBetween(Some(NthKey(0)), None, n - 1)
  {
    NthIsValid(0);
    assert Gap([], None) && Midpoint([], None) == [31] == NthKey(0);
    hide Midpoint, NthKey;
    assert Between(None, None) == NthKey(0);
  }

  /** A rewritten column's keys are those of the places in turn; none is too long up to 240 tickets. */
  lemma RewrittenKeys(n: nat)
    ensures forall i :: 0 <= i < n ==> KeysBetween(None, None, n)[i] == NthKey(i)
    ensures forall i :: 0 <= i < n ==> (NeedsRebalance(KeysBetween(None, None, n)[i]) <==> i >= 240)
  {
    hide NthKey, KeysBetween, Valid;
    if n > 0 {
      FirstKey(n);
      NthAfter(0, n - 1);
    }
  }

  /** One of the first `n` keys of a rewritten column. */
  ghost predicate AmongFirst(k: Key, n: nat) {
    exists i :: 0 <= i < n && k == NthKey(i)
  }
}
