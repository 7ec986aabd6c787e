/**
 How often one person may guess a device code: misses are counted in a window
 that starts with a miss, and a full window answers `rate_limited` until it ends.
 */
module LinkAttempts {
  import opened Wrappers

  const MAX_FAILURES: nat := 10
  const WINDOW_MS: int := 600_000

  datatype Attempts = Attempts(windowStartedAt: int, failures: nat)
  /** A code entered at `at`; `pending` when it names a request that still waits. */
  datatype Entry = Entry(at: int, pending: bool)
  datatype Answer = Found | NotFound | RateLimited

  predicate InWindow(row: Option<Attempts>, now: int) {
    row.Some? && now - row.value.windowStartedAt < WINDOW_MS
  }

  function Answered(row: Option<Attempts>, e: Entry): Answer {
    if InWindow(row, e.at) && row.value.failures >= MAX_FAILURES then RateLimited
    else if e.pending then Found
    else NotFound
  }

  function Counted(row: Option<Attempts>, e: Entry): Option<Attempts> {
    if Answered(row, e) != NotFound then row
    else if InWindow(row, e.at) then Some(row.value.(failures := row.value.failures + 1))
    else Some(Attempts(e.at, 1))
  }

  class Lookups {
    var row: Option<Attempts>

    constructor ()
      ensures row == None
    {
      row := None;
    }

    method LookupLinkCode(e: Entry) returns (answer: Answer)
      modifies this
      ensures row == Counted(old(row), e) && answer == Answered(old(row), e)
    {
      var inWindow := row.Some? && e.at - row.value.windowStartedAt < WINDOW_MS;
      if inWindow && row.value.failures >= MAX_FAILURES {
        return RateLimited;
      }
      if e.pending {
        return Found;
      }
      if row.None? {
        row := Some(Attempts(e.at, 1));
      } else if inWindow {
        row := Some(row.value.(failures := row.value.failures + 1));
      } else {
        row := Some(Attempts(e.at, 1));
      }
      return NotFound;
    }
  }

  /** The row after some entries. */
  function After(es: seq<Entry>): Option<Attempts> {
    if es == [] then None else Counted(After(es[..|es| - 1]), es[|es| - 1])
  }

  /** How many entries from `since` on were answered `not_found`. */
  function Misses(es: seq<Entry>, since: int): nat {
    if es == [] then 0
    else
      var last := es[|es| - 1];
      Misses(es[..|es| - 1], since) +
      (if last.at >= since && Answered(After(es[..|es| - 1]), last) == NotFound then 1 else 0)
  }

  predicate Ordered(es: seq<Entry>) {
    forall i, j :: 0 <= i <= j < |es| ==> es[i].at <= es[j].at
  }

  /** The row counts the misses since its window began, never more than the limit. */
  lemma {:induction false} WindowCounts(es: seq<Entry>)
    requires Ordered(es)
    ensures After(es).Some? ==>
              es != [] && After(es).value.windowStartedAt <= es[|es| - 1].at &&
              1 <= After(es).value.failures <= MAX_FAILURES
                && After(es).value.failures <= Misses(es, After(es).value.windowStartedAt)
    ensures After(es).None? ==> forall since :: Misses(es, since) == 0
    decreases |es|
  {
    if es != [] {
      WindowCounts(es[..|es| - 1]);
    }
  }

  lemma {:induction false} NoMissesYet(es: seq<Entry>, since: int)
    requires forall i :: 0 <= i < |es| ==> es[i].at < since
    ensures Misses(es, since) == 0
    decreases |es|
  {
    if es != [] {
      NoMissesYet(es[..|es| - 1], since);
    }
  }

  /** Per recorded window, a person misses at most `MAX_FAILURES` times. */
  lemma {:induction false} MissesInWindow(es: seq<Entry>, since: int)
    requires Ordered(es) && After(es).Some?
    ensures After(es).value.windowStartedAt < since ==> Misses(es, since) <= After(es).value.failures - 1
    ensures es[|es| - 1].at < since + WINDOW_MS && since <= After(es).value.windowStartedAt ==>
              Misses(es, since) <= MAX_FAILURES - 1 + After(es).value.failures
    decreases |es|
  {
    WindowCounts(es);
    var before := es[..|es| - 1];
    WindowCounts(before);
    if es[|es| - 1].at < since {
      NoMissesYet(es, since);
    }
    if After(before).Some? {
      MissesInWindow(before, since);
    }
  }

  /**
   In any interval of the window's length a person misses at most
   `2 * MAX_FAILURES - 1` times: the miss that starts a window and the misses of
   the next window are never in one interval.
   */
  lemma MissesInAnyInterval(es: seq<Entry>, since: int)
    requires Ordered(es) && (es == [] || es[|es| - 1].at < since + WINDOW_MS)
    ensures Misses(es, since) <= 2 * MAX_FAILURES - 1
  {
    WindowCounts(es);
    if After(es).Some? {
      MissesInWindow(es, since);
    }
  }

  // ── what a person is answered ──────────────────────────────────────────────

  /** How many misses a person has left at `at`: ten, less those counted in a window of ten minutes still running. */
  function LeftAt(row: Option<Attempts>, at: int): int {
    if row.Some? && at < row.value.windowStartedAt + 600_000 then 10 - row.value.failures else 10
  }

  /**
   With misses left a code that waits is found and costs nothing; any other is not
   found and costs one, in the window that runs or in a new one; without any left
   nothing is looked up and nothing changes.
   */
  lemma AnsweredExactly(row: Option<Attempts>, e: Entry)
    ensures Answered(row, e) ==
              if LeftAt(row, e.at) <= 0 then RateLimited else if e.pending then Found else NotFound
    ensures LeftAt(row, e.at) <= 0 || e.pending ==> Counted(row, e) == row
    ensures LeftAt(row, e.at) > 0 && !e.pending ==>
              && LeftAt(Counted(row, e), e.at) == LeftAt(row, e.at) - 1
              && Counted(row, e).Some?
              && Counted(row, e).value.windowStartedAt ==
                   if row.Some? && e.at < row.value.windowStartedAt + 600_000 then row.value.windowStartedAt else e.at
  {
  }

  /** However many codes that wait a person enters, and however often, none of them costs a miss. */
  lemma {:induction false} FindingIsFree(es: seq<Entry>, found: seq<Entry>)
    requires forall e :: e in found ==> e.pending
    ensures After(es + found) == After(es)
    decreases |found|
  {
    if found == [] {
      assert es + found == es;
    } else {
      var front := found[..|found| - 1];
      assert (es + found)[..|es + found| - 1] == es + front;
      FindingIsFree(es, front);
    }
  }

  // ── and that bound is met ──────────────────────────────────────────────────

  function Guesses(at: int, n: nat): seq<Entry> {
    seq(n, _ => Entry(at, false))
  }

  /** `n` more misses at one moment inside a window that has room for them. */
  lemma {:induction false} MoreMisses(es: seq<Entry>, at: int, n: nat, since: int)
    requires InWindow(After(es), at) && After(es).value.failures + n <= MAX_FAILURES && since <= at
    ensures var all := es + Guesses(at, n);
            After(all) == Some(Attempts(After(es).value.windowStartedAt, After(es).value.failures + n))
              && Misses(all, since) == Misses(es, since) + n
    decreases n
  {
    if n == 0 {
      assert es + Guesses(at, 0) == es;
    } else {
      MoreMisses(es, at, n - 1, since);
      assert (es + Guesses(at, n))[..|es| + n - 1] == es + Guesses(at, n - 1);
    }
  }

  /** One miss outside any window starts one. */
  lemma FirstMiss(es: seq<Entry>, at: int, since: int)
    requires !InWindow(After(es), at)
    ensures var all := es + [Entry(at, false)];
            After(all) == Some(Attempts(at, 1)) && Misses(all, since) ==
              Misses(es, since) + (if at >= since then 1 else 0)
  {
    assert (es + [Entry(at, false)])[..|es|] == es;
  }

  lemma BoundIsMet() returns (es: seq<Entry>)
    ensures Ordered(es) && es != [] && es[|es| - 1].at < (WINDOW_MS - 1) + WINDOW_MS
    ensures Misses(es, WINDOW_MS - 1) == 2 * MAX_FAILURES - 1
  {
    var since := WINDOW_MS - 1;
    var one := [] + [Entry(0, false)];
    FirstMiss([], 0, since);
    var two := one + Guesses(since, MAX_FAILURES - 1);
    MoreMisses(one, since, MAX_FAILURES - 1, since);
    var three := two + [Entry(WINDOW_MS, false)];
    FirstMiss(two, WINDOW_MS, since);
    es := three + Guesses(WINDOW_MS, MAX_FAILURES - 1);
    MoreMisses(three, WINDOW_MS, MAX_FAILURES - 1, since);
    assert Misses([], since) == 0;
  }
}
