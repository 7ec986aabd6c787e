/**
 Handing a replaced runner's work to its successor, a page at a time: Session
 claims at the next generation, Sessions placed on it, their viewers, and the open
 jobs that name no Working copy. A moved row leaves the old runner's index, so the
 next page is simply the same again.
 */
module Handover {
  import opened Wrappers
  import opened RunnerInbox
  import RunnerInboxProofs

  const PAGE_SIZE: nat := 200

  type Id = nat

  datatype SessionClaim = SessionClaim(runner: RunnerId, generation: nat)

  datatype Tables = Tables(
    intakes: map<Id, SessionClaim>, places: map<Id, Option<RunnerId>>, viewers: map<Id, RunnerId>,
    jobs: map<JobId, Job>
  )

  // ── what a runner holds ────────────────────────────────────────────────────

  function Claims(t: Tables, r: RunnerId): set<Id> {
    set id | id in t.intakes && t.intakes[id].runner == r
  }

  function Placed(t: Tables, r: RunnerId): set<Id> {
    set id | id in t.places && t.places[id] == Some(r)
  }

  function Watching(t: Tables, r: RunnerId): set<Id> {
    set id | id in t.viewers && t.viewers[id] == r
  }

  predicate OpenJob(job: Job, r: RunnerId, status: Status) {
    job.runner == r && job.status == status && !job.pinned
  }

  function OpenJobs(t: Tables, r: RunnerId, status: Status): set<JobId> {
    set id | id in t.jobs && OpenJob(t.jobs[id], r, status)
  }

  /** How many rows are left to move. */
  function Left(t: Tables, r: RunnerId): nat {
    |Claims(t, r)| + |Placed(t, r)| + |Watching(t, r)| + |OpenJobs(t, r, Queued)| + |OpenJobs(t, r, Leased)|
  }

  // ── one page ───────────────────────────────────────────────────────────────

  /** What one page takes of each index. */
  datatype Pages = Pages(claims: set<Id>, placed: set<Id>, watching: set<Id>, queued: set<JobId>, leased: set<JobId>)

  predicate IsPage(held: set<Id>, page: set<Id>) {
    page <= held && |page| == if |held| < PAGE_SIZE then |held| else PAGE_SIZE
  }

  predicate PagesOf(t: Tables, from: RunnerId, pages: Pages) {
    && IsPage(Claims(t, from), pages.claims)
    && IsPage(Placed(t, from), pages.placed)
    && IsPage(Watching(t, from), pages.watching)
    && IsPage(OpenJobs(t, from, Queued), pages.queued) && IsPage(OpenJobs(t, from, Leased), pages.leased)
  }

  /** Whether more may remain. */
  predicate More(pages: Pages) {
    |pages.claims| == PAGE_SIZE || |pages.placed| == PAGE_SIZE || |pages.watching| == PAGE_SIZE
    || |pages.queued| == PAGE_SIZE || |pages.leased| == PAGE_SIZE
  }

  function MovedClaims(m: map<Id, SessionClaim>, page: set<Id>, to: RunnerId): map<Id, SessionClaim> {
    map id | id in m :: if id in page then SessionClaim(to, m[id].generation + 1) else m[id]
  }

  function MovedPlaces(m: map<Id, Option<RunnerId>>, page: set<Id>, to: RunnerId): map<Id, Option<RunnerId>> {
    map id | id in m :: if id in page then Some(to) else m[id]
  }

  function MovedViewers(m: map<Id, RunnerId>, page: set<Id>, to: RunnerId): map<Id, RunnerId> {
    map id | id in m :: if id in page then to else m[id]
  }

  function MovedJobs(m: map<JobId, Job>, page: set<JobId>, to: RunnerId): map<JobId, Job> {
    map id | id in m :: if id in page then m[id].(runner := to) else m[id]
  }

  function Moved(t: Tables, pages: Pages, to: RunnerId): Tables {
    Tables(MovedClaims(t.intakes, pages.claims, to), MovedPlaces(t.places, pages.placed, to),
           MovedViewers(t.viewers, pages.watching, to), MovedJobs(t.jobs, pages.queued + pages.leased, to))
  }

  /** Everything there is to move. */
  function Everything(t: Tables, from: RunnerId): Pages {
    Pages(Claims(t, from), Placed(t, from), Watching(t, from), OpenJobs(t, from, Queued), OpenJobs(t, from, Leased))
  }

  predicate Within(a: Pages, b: Pages) {
    a.claims <= b.claims && a.placed <= b.placed && a.watching <= b.watching && a.queued <= b.queued
      && a.leased <= b.leased
  }

  lemma JobsLeft(m: map<JobId, Job>, t: Tables, next: Tables, page: set<JobId>, from: RunnerId, to: RunnerId,
          status: Status)
    requires from != to && t.jobs == m && next.jobs == MovedJobs(m, page, to)
    ensures OpenJobs(next, from, status) == OpenJobs(t, from, status) - page
  {
  }

  lemma IntakesLeft(t: Tables, next: Tables, pages: Pages, from: RunnerId, to: RunnerId)
    requires from != to
    requires next.intakes == MovedClaims(t.intakes, pages.claims, to)
    requires next.places == MovedPlaces(t.places, pages.placed, to)
    requires next.viewers == MovedViewers(t.viewers, pages.watching, to)
    ensures Claims(next, from) == Claims(t, from) - pages.claims && Placed(next, from) == Placed(t, from) - pages.placed
    ensures Watching(next, from) == Watching(t, from) - pages.watching
  {
  }

  /** What is moved leaves what is held, index by index. */
  lemma RowsLeft(t: Tables, sofar: Pages, from: RunnerId, to: RunnerId)
    requires from != to && Within(sofar, Everything(t, from))
    ensures var next := Moved(t, sofar, to);
            && Claims(next, from) == Claims(t, from) - sofar.claims
            && Placed(next, from) == Placed(t, from) - sofar.placed
            && Watching(next, from) == Watching(t, from) - sofar.watching
            && OpenJobs(next, from, Queued) == OpenJobs(t, from, Queued) - sofar.queued
            && OpenJobs(next, from, Leased) == OpenJobs(t, from, Leased) - sofar.leased
  {
    var next := Moved(t, sofar, to);
    var jobs := sofar.queued + sofar.leased;
    IntakesLeft(t, next, sofar, from, to);
    JobsLeft(t.jobs, t, next, jobs, from, to, Queued);
    JobsLeft(t.jobs, t, next, jobs, from, to, Leased);
    assert OpenJobs(t, from, Queued) !! OpenJobs(t, from, Leased);
    assert OpenJobs(t, from, Queued) - jobs == OpenJobs(t, from, Queued) - sofar.queued;
    assert OpenJobs(t, from, Leased) - jobs == OpenJobs(t, from, Leased) - sofar.leased;
  }

  /** A page takes its rows out of what is held. */
  lemma PageTakes(t: Tables, from: RunnerId, to: RunnerId, pages: Pages)
    requires from != to && PagesOf(t, from, pages)
    ensures var next := Moved(t, pages, to);
            && Claims(next, from) == Claims(t, from) - pages.claims
            && Placed(next, from) == Placed(t, from) - pages.placed
            && Watching(next, from) == Watching(t, from) - pages.watching
            && OpenJobs(next, from, Queued) == OpenJobs(t, from, Queued) - pages.queued
            && OpenJobs(next, from, Leased) == OpenJobs(t, from, Leased) - pages.leased
  {
    hide Claims, Placed, Watching, OpenJobs, Moved;
    RowsLeft(t, pages, from, to);
  }

  lemma Less(held: set<Id>, page: set<Id>)
    requires IsPage(held, page)
    ensures |held - page| == |held| - |page|
    ensures |page| < PAGE_SIZE ==> held - page == {}
  {
    assert held == (held - page) + page;
    if |page| < PAGE_SIZE {
      assert |held - page| == 0;
    }
  }

  /**
   The page that answers that nothing more remains leaves nothing behind; any other page moves at
   least `PAGE_SIZE` rows.
   */
  lemma PageProgress(t: Tables, from: RunnerId, to: RunnerId, pages: Pages)
    requires from != to && PagesOf(t, from, pages)
    ensures !More(pages) ==> Left(Moved(t, pages, to), from) == 0
    ensures More(pages) ==> Left(Moved(t, pages, to), from) + PAGE_SIZE <= Left(t, from)
    ensures Left(Moved(t, pages, to), from) <= Left(t, from)
  {
    PageTakes(t, from, to, pages);
    Less(Claims(t, from), pages.claims);
    Less(Placed(t, from), pages.placed);
    Less(Watching(t, from), pages.watching);
    Less(OpenJobs(t, from, Queued), pages.queued);
    Less(OpenJobs(t, from, Leased), pages.leased);
  }

  lemma OnlyItsJobs(t: Tables, from: RunnerId, to: RunnerId, page: set<JobId>)
    requires page <= OpenJobs(t, from, Queued) + OpenJobs(t, from, Leased)
    ensures var next := MovedJobs(t.jobs, page, to);
            && (forall id :: id in t.jobs && t.jobs[id].runner != from ==> next[id] == t.jobs[id])
            && (forall id :: id in t.jobs ==> next[id] == t.jobs[id].(runner := next[id].runner))
  {
  }

  /**
   Nothing on any other runner changes, a moved claim rises by exactly one, and a moved job keeps
   its boot and attempt.
   */
  lemma OnlyTheReplacedRunner(t: Tables, from: RunnerId, to: RunnerId, pages: Pages)
    requires PagesOf(t, from, pages)
    ensures var next := Moved(t, pages, to);
            && (forall id :: id in t.intakes && t.intakes[id].runner != from ==> next.intakes[id] == t.intakes[id])
            && (forall id :: id in t.places && t.places[id] != Some(from) ==> next.places[id] == t.places[id])
            && (forall id :: id in t.viewers && t.viewers[id] != from ==> next.viewers[id] == t.viewers[id])
            && (forall id :: id in t.jobs && t.jobs[id].runner != from ==> next.jobs[id] == t.jobs[id])
            && (forall id :: id in t.jobs ==> next.jobs[id] == t.jobs[id].(runner := next.jobs[id].runner))
            && (forall id :: id in t.intakes && next.intakes[id] != t.intakes[id] ==>
                  next.intakes[id] == SessionClaim(to, t.intakes[id].generation + 1))
  {
    OnlyItsJobs(t, from, to, pages.queued + pages.leased);
    assert MovedJobs(t.jobs, pages.queued + pages.leased, to).Keys == t.jobs.Keys;
    hide MovedJobs, OpenJobs;
  }

  /** What a page takes arrives on the successor, and what it does not take stays where it is. */
  lemma PageArrives(t: Tables, from: RunnerId, to: RunnerId, pages: Pages)
    requires PagesOf(t, from, pages)
    ensures var next := Moved(t, pages, to);
            && next.intakes.Keys == t.intakes.Keys && next.places.Keys == t.places.Keys
            && next.viewers.Keys == t.viewers.Keys && next.jobs.Keys == t.jobs.Keys
            && (forall id :: id in t.intakes ==>
                  next.intakes[id] == if id in pages.claims then SessionClaim(to, t.intakes[id].generation + 1)
                                      else t.intakes[id])
            && (forall id :: id in t.places ==>
                  next.places[id] == if id in pages.placed then Some(to) else t.places[id])
            && (forall id :: id in t.viewers ==>
                  next.viewers[id] == if id in pages.watching then to else t.viewers[id])
            && (forall id :: id in t.jobs ==>
                  next.jobs[id].runner == if id in pages.queued || id in pages.leased then to else t.jobs[id].runner)
  {
    hide PagesOf;
  }

  /** Once all of it was moved, the successor holds its own work and exactly the replaced runner's. */
  lemma AllArrives(t: Tables, from: RunnerId, to: RunnerId)
    requires from != to
    ensures var next := Moved(t, Everything(t, from), to);
            && Claims(next, to) == Claims(t, to) + Claims(t, from)
            && Placed(next, to) == Placed(t, to) + Placed(t, from)
            && Watching(next, to) == Watching(t, to) + Watching(t, from)
    ensures forall status :: status == Queued || status == Leased ==>
              OpenJobs(Moved(t, Everything(t, from), to), to, status) ==
              OpenJobs(t, to, status) + OpenJobs(t, from, status)
  {
    forall status | status == Queued || status == Leased
      ensures OpenJobs(Moved(t, Everything(t, from), to), to, status) ==
              OpenJobs(t, to, status) + OpenJobs(t, from, status)
    {
    }
  }

  /** A page is one of the inbox's own steps, so the fencing by boot and attempt holds across it. */
  lemma InboxKeeps(db: Db, t: Tables, from: RunnerId, to: RunnerId, pages: Pages)
    requires RunnerInbox.Good(db) && t.jobs == db.jobs && PagesOf(t, from, pages)
    ensures Legal(db, EHandover(from, to, pages.queued + pages.leased))
    ensures Next(db, EHandover(from, to, pages.queued + pages.leased)).jobs == Moved(t, pages, to).jobs
    ensures RunnerInbox.Good(db.(jobs := Moved(t, pages, to).jobs))
  {
    var e := EHandover(from, to, pages.queued + pages.leased);
    assert Next(db, e).jobs == Moved(t, pages, to).jobs;
    RunnerInboxProofs.StepKeeps(db, e);
    assert Next(db, e) == db.(jobs := Moved(t, pages, to).jobs);
  }

  // ── the chain, with others at work meanwhile ───────────────────────────────

  /** No new row arrives on the replaced runner. */
  predicate NoArrivals(t: Tables, next: Tables, from: RunnerId) {
    && Claims(next, from) <= Claims(t, from)
    && Placed(next, from) <= Placed(t, from)
    && Watching(next, from) <= Watching(t, from)
    && OpenJobs(next, from, Queued) + OpenJobs(next, from, Leased) <=
       OpenJobs(t, from, Queued) + OpenJobs(t, from, Leased)
  }

  datatype Step = Page(pages: Pages) | Others

  ghost predicate Chain(states: seq<Tables>, steps: seq<Step>, from: RunnerId, to: RunnerId) {
    && |states| == |steps| + 1 && from != to
    && forall i :: 0 <= i < |steps| ==> ChainStep(states[i], steps[i], states[i + 1], from, to)
  }

  predicate ChainStep(t: Tables, step: Step, next: Tables, from: RunnerId, to: RunnerId) {
    match step
    case Page(pages) => PagesOf(t, from, pages) && next == Moved(t, pages, to)
    case Others => NoArrivals(t, next, from)
  }

  /** The pages among the first `k` steps that asked for another. */
  function Continued(steps: seq<Step>, k: nat): nat
    requires k <= |steps|
  {
    if k == 0 then 0 else Continued(steps, k - 1) + (if steps[k - 1].Page? && More(steps[k - 1].pages) then 1 else 0)
  }

  lemma OpenJobsApart(t: Tables, r: RunnerId)
    ensures |OpenJobs(t, r, Queued) + OpenJobs(t, r, Leased)| == |OpenJobs(t, r, Queued)| + |OpenJobs(t, r, Leased)|
  {
    assert OpenJobs(t, r, Queued) !! OpenJobs(t, r, Leased);
  }

  lemma NoArrivalsShrinks(t: Tables, next: Tables, from: RunnerId)
    requires NoArrivals(t, next, from)
    ensures Left(next, from) <= Left(t, from)
  {
    SubsetSize(Claims(next, from), Claims(t, from));
    SubsetSize(Placed(next, from), Placed(t, from));
    SubsetSize(Watching(next, from), Watching(t, from));
    SubsetSize(OpenJobs(next, from, Queued) + OpenJobs(next, from, Leased),
               OpenJobs(t, from, Queued) + OpenJobs(t, from, Leased));
    OpenJobsApart(t, from);
    OpenJobsApart(next, from);
  }

  /** The chain ends: every page that continues it moved at least `PAGE_SIZE` of the rows there were. */
  lemma {:induction false} ChainEnds(states: seq<Tables>, steps: seq<Step>, from: RunnerId, to: RunnerId, k: nat)
    requires Chain(states, steps, from, to) && k <= |steps|
    ensures PAGE_SIZE * Continued(steps, k) + Left(states[k], from) <= Left(states[0], from)
    decreases k
  {
    hide Left, PagesOf, Moved, NoArrivals;
    if k > 0 {
      ChainEnds(states, steps, from, to, k - 1);
      assert ChainStep(states[k - 1], steps[k - 1], states[k - 1 + 1], from, to);
      match steps[k - 1]
      case Page(pages) => PageProgress(states[k - 1], from, to, pages);
      case Others => NoArrivalsShrinks(states[k - 1], states[k], from);
    }
  }

  /** And once a page answers that nothing remains, nothing is left on the replaced runner from then on. */
  lemma {:induction false} NothingLeftBehind(states: seq<Tables>, steps: seq<Step>, from: RunnerId, to: RunnerId,
          j: nat, k: nat)
    requires Chain(states, steps, from, to) && j < k <= |steps| && steps[j].Page? && !More(steps[j].pages)
    ensures Left(states[k], from) == 0
    decreases k
  {
    hide Left, PagesOf, Moved, NoArrivals;
    assert ChainStep(states[k - 1], steps[k - 1], states[k - 1 + 1], from, to);
    if k == j + 1 {
      PageProgress(states[j], from, to, steps[j].pages);
    } else {
      NothingLeftBehind(states, steps, from, to, j, k - 1);
      match steps[k - 1]
      case Page(pages) => PageProgress(states[k - 1], from, to, pages);
      case Others => NoArrivalsShrinks(states[k - 1], states[k], from);
    }
  }

  // ── the mutations ──────────────────────────────────────────────────────────

  function HeldIn<T(!new)>(rows: map<Id, T>, held: T -> bool): set<Id> {
    set id | id in rows && held(rows[id])
  }

  /** Patches up to a page of the rows that are held. */
  method MovePage<T(!new)>(rows: map<Id, T>, held: T -> bool, patched: T -> T) returns (next: map<Id, T>, page: set<Id>)
    ensures IsPage(HeldIn(rows, held), page)
    ensures next == map id | id in rows :: if id in page then patched(rows[id]) else rows[id]
  {
    next, page := rows, {};
    var left := rows.Keys;
    while left != {} && |page| < PAGE_SIZE
      invariant left <= rows.Keys && page <= rows.Keys - left && |page| <= PAGE_SIZE
      invariant page == set id | id in rows && id !in left && held(rows[id])
      invariant next.Keys == rows.Keys
      invariant forall id :: id in rows ==> next[id] == if id in page then patched(rows[id]) else rows[id]
    {
      var id :| id in left;
      left := left - {id};
      if held(rows[id]) {
        page := page + {id};
        next := next[id := patched(rows[id])];
      }
    }
    assert page <= HeldIn(rows, held);
    SubsetSize(page, HeldIn(rows, held));
    if left == {} {
      assert page == HeldIn(rows, held);
    }
  }

  class Runners {
    var intakes: map<Id, SessionClaim>
    var places: map<Id, Option<RunnerId>>
    var viewers: map<Id, RunnerId>
    var jobs: map<JobId, Job>

    function State(): Tables
      reads this
    {
      Tables(intakes, places, viewers, jobs)
    }

    constructor ()
      ensures State() == Tables(map[], map[], map[], map[])
    {
      intakes, places, viewers, jobs := map[], map[], map[], map[];
    }

    method MoveClaims(from: RunnerId, to: RunnerId) returns (page: set<Id>)
      modifies this`intakes
      ensures IsPage(Claims(old(State()), from), page)
      ensures intakes == MovedClaims(old(intakes), page, to)
    {
      var held := (c: SessionClaim) => c.runner == from;
      assert Claims(State(), from) == HeldIn(intakes, held);
      intakes, page := MovePage(intakes, held, (c: SessionClaim) => SessionClaim(to, c.generation + 1));
    }

    method MovePlaces(from: RunnerId, to: RunnerId) returns (page: set<Id>)
      modifies this`places
      ensures IsPage(Placed(old(State()), from), page)
      ensures places == MovedPlaces(old(places), page, to)
    {
      var held := (p: Option<RunnerId>) => p == Some(from);
      assert Placed(State(), from) == HeldIn(places, held);
      places, page := MovePage(places, held, (_: Option<RunnerId>) => Some(to));
    }

    method MoveViewers(from: RunnerId, to: RunnerId) returns (page: set<Id>)
      modifies this`viewers
      ensures IsPage(Watching(old(State()), from), page)
      ensures viewers == MovedViewers(old(viewers), page, to)
    {
      var held := (v: RunnerId) => v == from;
      assert Watching(State(), from) == HeldIn(viewers, held);
      viewers, page := MovePage(viewers, held, (_: RunnerId) => to);
    }

    method MoveJobs(from: RunnerId, to: RunnerId, status: Status) returns (page: set<JobId>)
      modifies this`jobs
      ensures IsPage(OpenJobs(old(State()), from, status), page)
      ensures jobs == MovedJobs(old(jobs), page, to)
    {
      var held := (j: Job) => OpenJob(j, from, status);
      assert OpenJobs(State(), from, status) == HeldIn(jobs, held);
      jobs, page := MovePage(jobs, held, (j: Job) => j.(runner := to));
    }

    method MoveRunnerWork(from: RunnerId, to: RunnerId) returns (more: bool, ghost pages: Pages)
      requires from != to
      modifies this
      ensures PagesOf(old(State()), from, pages) && State() == Moved(old(State()), pages, to) && more == More(pages)
    {
      hide IsPage, MovedClaims, MovedPlaces, MovedViewers, MovedJobs;
      ghost var was := State();
      var claims := MoveClaims(from, to);
      var placed := MovePlaces(from, to);
      var watching := MoveViewers(from, to);
      var queued := MoveJobs(from, to, Queued);
      var leased := MoveJobs(from, to, Leased);
      JobsTwice(was, from, to, queued, leased);
      pages := Pages(claims, placed, watching, queued, leased);
      more := |queued| == PAGE_SIZE || |leased| == PAGE_SIZE || |claims| == PAGE_SIZE || |placed| == PAGE_SIZE
        || |watching| == PAGE_SIZE;
    }

    /** All of a replaced runner's work, nobody else writing meanwhile: each row moved once. */
    method MoveReplacedWork(from: RunnerId, to: RunnerId)
      requires from != to
      modifies this
      ensures Left(State(), from) == 0
      ensures State() == Moved(old(State()), Everything(old(State()), from), to)
    {
      ghost var was := State();
      NothingMoved(was, to);
      ghost var sofar := Pages({}, {}, {}, {}, {});
      var more := true;
      while more
        invariant Within(sofar, Everything(was, from)) && State() == Moved(was, sofar, to)
        invariant !more ==> Left(State(), from) == 0
        decreases Left(State(), from) + (if more then 1 else 0)
      {
        ghost var before := State();
        ghost var pages;
        more, pages := MoveRunnerWork(from, to);
        PageProgress(before, from, to, pages);
        OnePageMore(was, sofar, pages, from, to);
        sofar := Both(sofar, pages);
      }
      NothingLeftIsEverything(was, sofar, from, to);
    }
  }

  // ── pages put together ─────────────────────────────────────────────────────

  function Both(a: Pages, b: Pages): Pages {
    Pages(a.claims + b.claims, a.placed + b.placed, a.watching + b.watching, a.queued + b.queued, a.leased + b.leased)
  }

  lemma NothingMoved(t: Tables, to: RunnerId)
    ensures Moved(t, Pages({}, {}, {}, {}, {}), to) == t
  {
  }

  /** Moving queued jobs leaves the leased ones where they are. */
  lemma QueuedAside(was: Tables, from: RunnerId, to: RunnerId, queued: set<JobId>)
    requires queued <= OpenJobs(was, from, Queued)
    ensures OpenJobs(was.(jobs := MovedJobs(was.jobs, queued, to)), from, Leased) == OpenJobs(was, from, Leased)
  {
    var next := was.(jobs := MovedJobs(was.jobs, queued, to));
    forall id
      ensures id in OpenJobs(next, from, Leased) <==> id in OpenJobs(was, from, Leased)
    {
      if id in queued {
        assert id in OpenJobs(was, from, Queued);
      }
    }
  }

  lemma MovedJobsTwice(m: map<JobId, Job>, a: set<JobId>, b: set<JobId>, to: RunnerId)
    ensures MovedJobs(MovedJobs(m, a, to), b, to) == MovedJobs(m, a + b, to)
  {
  }

  /** The queued page and then the leased page are the two pages at once. */
  lemma JobsTwice(was: Tables, from: RunnerId, to: RunnerId, queued: set<JobId>, leased: set<JobId>)
    requires IsPage(OpenJobs(was, from, Queued), queued)
    requires IsPage(OpenJobs(was.(jobs := MovedJobs(was.jobs, queued, to)), from, Leased), leased)
    ensures IsPage(OpenJobs(was, from, Leased), leased)
    ensures MovedJobs(MovedJobs(was.jobs, queued, to), leased, to) == MovedJobs(was.jobs, queued + leased, to)
  {
    hide MovedJobs, OpenJobs;
    QueuedAside(was, from, to, queued);
    MovedJobsTwice(was.jobs, queued, leased, to);
  }

  lemma Twice(t: Tables, a: Pages, b: Pages, to: RunnerId)
    requires a.claims !! b.claims
    ensures MovedClaims(MovedClaims(t.intakes, a.claims, to), b.claims, to) ==
            MovedClaims(t.intakes, a.claims + b.claims, to)
    ensures MovedPlaces(MovedPlaces(t.places, a.placed, to), b.placed, to) ==
            MovedPlaces(t.places, a.placed + b.placed, to)
    ensures MovedViewers(MovedViewers(t.viewers, a.watching, to), b.watching, to) ==
            MovedViewers(t.viewers, a.watching + b.watching, to)
    ensures MovedJobs(MovedJobs(t.jobs, a.queued + a.leased, to), b.queued + b.leased, to) ==
            MovedJobs(t.jobs, (a.queued + b.queued) + (a.leased + b.leased), to)
  {
  }

  lemma OnePageMore(t: Tables, sofar: Pages, pages: Pages, from: RunnerId, to: RunnerId)
    requires from != to && Within(sofar, Everything(t, from)) && PagesOf(Moved(t, sofar, to), from, pages)
    ensures Within(Both(sofar, pages), Everything(t, from))
    ensures Moved(Moved(t, sofar, to), pages, to) == Moved(t, Both(sofar, pages), to)
  {
    hide MovedClaims, MovedPlaces, MovedViewers, MovedJobs, Claims, Placed, Watching, OpenJobs;
    RowsLeft(t, sofar, from, to);
    Twice(t, sofar, pages, to);
  }

  lemma NothingLeftIsEverything(t: Tables, sofar: Pages, from: RunnerId, to: RunnerId)
    requires from != to && Within(sofar, Everything(t, from)) && Left(Moved(t, sofar, to), from) == 0
    ensures sofar == Everything(t, from)
  {
    RowsLeft(t, sofar, from, to);
  }
}
