/**
 Reconciling an installation of the GitHub App: one loop over the repositories
 GitHub lists points their rows at the installation, a second one marks the rows
 it still holds whose repository has left the selection.
 */
module Reconcile {
  import opened Wrappers

  type RowId = nat
  type RepoId = nat
  type InstallationId = nat
  type Text = nat

  datatype Access = Ok | Archived | NotInInstallation | AppRemoved | Deleted

  /** A project's row about a repository; `checkedAt` is its timestamp. */
  datatype Row = Row(
    repo: Option<RepoId>, installation: Option<InstallationId>, owner: Text, name: Text,
    branch: Option<Text>, access: Option<Access>, checkedAt: Option<int>
  )
  type Rows = map<RowId, Row>

  datatype Repository = Repository(id: RepoId, owner: Text, name: Text, branch: Option<Text>, archived: bool)

  datatype Installation = Installation(deleted: bool, suspended: bool, reconciledAt: Option<int>)

  /** What GitHub said: the installation is gone, or it is suspended or not and its (maybe cut) list. */
  datatype Snapshot = Gone | Seen(suspended: bool, repositories: seq<Repository>, complete: bool)

  function DecideRepoAccess(installation: Option<Installation>, inInstallation: bool, archived: bool,
          deleted: bool): Access
  {
    if deleted then Deleted
    else if installation.None? || installation.value.deleted || installation.value.suspended then AppRemoved
    else if !inInstallation then NotInInstallation
    else if archived then Archived
    else Ok
  }

  const LIVE: Option<Installation> := Some(Installation(false, false, None))

  function Listed(row: Row, repo: Repository, i: InstallationId, now: int): Row {
    row.(installation := Some(i), owner := repo.owner, name := repo.name, branch := repo.branch,
         access := Some(DecideRepoAccess(LIVE, true, repo.archived, false)), checkedAt := Some(now))
  }

  /** The last entry of the list about a repository. */
  function EntryOf(repos: seq<Repository>, id: RepoId): Option<Repository> {
    if repos == [] then None
    else if repos[|repos| - 1].id == id then Some(repos[|repos| - 1])
    else EntryOf(repos[..|repos| - 1], id)
  }

  /** What a row should say after a snapshot of installation `i`. */
  function Reconciled(row: Row, s: Snapshot, i: InstallationId, now: int): Row {
    match s
    case Gone => if row.installation == Some(i) then row.(access := Some(AppRemoved), checkedAt := Some(now)) else row
    case Seen(suspended, repos, complete) =>
      if suspended then (if row.installation == Some(i) then row.(access := Some(AppRemoved), checkedAt := Some(now))
        else row)
      else
        var entry := if row.repo.Some? then EntryOf(repos, row.repo.value) else None;
        if entry.Some? then Listed(row, entry.value, i, now)
        else if complete && row.installation == Some(i)
        then row.(access := Some(DecideRepoAccess(LIVE, false, false, false)), checkedAt := Some(now))
        else row
  }

  /** A row the installation holds whose repository is neither touched nor listed leaves the selection. */
  function Dropped(row: Row, left: bool, i: InstallationId, listed: set<RepoId>, now: int): Row {
    if left && row.installation == Some(i) && !(row.repo.Some? && row.repo.value in listed)
    then row.(access := Some(NotInInstallation), checkedAt := Some(now)) else row
  }

  function Table(rows: Rows, s: Snapshot, i: InstallationId, now: int): Rows {
    map r | r in rows :: Reconciled(rows[r], s, i, now)
  }

  class Installations {
    var rows: Rows
    var installations: map<InstallationId, Installation>

    constructor ()
      ensures rows == map[] && installations == map[]
    {
      rows, installations := map[], map[];
    }

    /** One access for every row the installation holds. */
    method SetAccess(i: InstallationId, access: Access, now: int)
      modifies this`rows
      ensures rows == map r | r in old(rows) ::
                if old(rows)[r].installation == Some(i) then old(rows)[r].(access := Some(access),
                  checkedAt := Some(now)) else old(rows)[r]
    {
      var left := rows.Keys;
      ghost var was := rows;
      while left != {}
        invariant left <= was.Keys && rows.Keys == was.Keys
        invariant forall r :: r in rows ==>
                    rows[r] == if r !in left && was[r].installation == Some(i)
                      then was[r].(access := Some(access), checkedAt := Some(now)) else was[r]
      {
        var r :| r in left;
        left := left - {r};
        if rows[r].installation == Some(i) {
          rows := rows[r := rows[r].(access := Some(access), checkedAt := Some(now))];
        }
      }
    }

    /** The rows of one listed repository, and which they are. */
    method PointRows(repo: Repository, i: InstallationId, now: int) returns (hit: set<RowId>)
      modifies this`rows
      ensures hit == set r | r in old(rows) && old(rows)[r].repo == Some(repo.id)
      ensures rows == map r | r in old(rows) ::
                        if old(rows)[r].repo == Some(repo.id)
                        then Listed(old(rows)[r], repo, i, now) else old(rows)[r]
    {
      var left := rows.Keys;
      ghost var was := rows;
      hit := {};
      while left != {}
        invariant left <= was.Keys && rows.Keys == was.Keys
        invariant hit == set r | r in was && r !in left && was[r].repo == Some(repo.id)
        invariant forall r :: r in rows ==> rows[r] == if r in hit then Listed(was[r], repo, i, now) else was[r]
      {
        var r :| r in left;
        left := left - {r};
        if rows[r].repo == Some(repo.id) {
          hit := hit + {r};
          rows := rows[r := Listed(rows[r], repo, i, now)];
        }
      }
    }

    /** The rows held whose repository has left the selection. */
    method DropRows(i: InstallationId, touched: set<RowId>, listed: set<RepoId>, now: int)
      modifies this`rows
      ensures rows == map r | r in old(rows) :: Dropped(old(rows)[r], r !in touched, i, listed, now)
    {
      var left := rows.Keys;
      ghost var was := rows;
      while left != {}
        invariant left <= was.Keys && rows.Keys == was.Keys
        invariant forall r :: r in rows ==> rows[r] == Dropped(was[r], r !in left && r !in touched, i, listed, now)
      {
        var r :| r in left;
        left := left - {r};
        var row := rows[r];
        if row.installation == Some(i) && !(r in touched || (row.repo.Some? && row.repo.value in listed)) {
          rows := rows[r := row.(access := Some(DecideRepoAccess(LIVE, false, false, false)), checkedAt := Some(now))];
        }
      }
    }

    /** Applies a snapshot: every row ends as `Reconciled` says. */
    method ApplyInstallation(i: InstallationId, s: Snapshot, now: int)
      modifies this
      ensures rows == Table(old(rows), s, i, now)
      ensures s.Gone? && i in old(installations) ==>
              installations == old(installations)[i := old(installations)[i].(deleted := true)]
      ensures s.Gone? && i !in old(installations) ==> installations == old(installations)
      ensures s.Seen? ==> installations == old(installations)[i := Installation(false, s.suspended, Some(now))]
    {
      if s.Gone? {
        if i in installations {
          installations := installations[i := installations[i].(deleted := true)];
        }
        SetAccess(i, AppRemoved, now);
        return;
      }
      installations := installations[i := Installation(false, s.suspended, Some(now))];
      if s.suspended {
        SetAccess(i, AppRemoved, now);
        return;
      }
      ghost var was := rows;
      var touched := PointAll(s.repositories, i, now);
      if s.complete {
        DropRows(i, touched, set repo | repo in s.repositories :: repo.id, now);
        DroppedIsTable(was, s.repositories, i, now);
      }
    }

    /** Every listed repository in turn: its rows point here, and which rows those were. */
    method PointAll(repos: seq<Repository>, i: InstallationId, now: int) returns (touched: set<RowId>)
      modifies this`rows
      ensures rows == Table(old(rows), Seen(false, repos, false), i, now)
      ensures touched == TouchedBy(old(rows), repos)
    {
      touched := {};
      ghost var was := rows;
      NothingPointed(was, i, now);
      hide Table, TouchedBy;
      for n := 0 to |repos|
        invariant rows == Table(was, Seen(false, repos[..n], false), i, now)
        invariant touched == TouchedBy(was, repos[..n])
      {
        PointNext(was, repos, n, i, now);
        var hit := PointRows(repos[n], i, now);
        touched := touched + hit;
      }
      assert repos[..|repos|] == repos;
    }
  }

  /** The rows about some listed repository. */
  ghost function TouchedBy(rows: Rows, repos: seq<Repository>): set<RowId> {
    set r | r in rows && rows[r].repo.Some? && EntryOf(repos, rows[r].repo.value).Some?
  }

  lemma NothingPointed(was: Rows, i: InstallationId, now: int)
    ensures Table(was, Seen(false, [], false), i, now) == was && TouchedBy(was, []) == {}
  {
  }

  /** One more entry of the list: its rows are overwritten, whatever an earlier entry wrote. */
  lemma PointNext(was: Rows, repos: seq<Repository>, n: nat, i: InstallationId, now: int)
    requires n < |repos|
    ensures var rows := Table(was, Seen(false, repos[..n], false), i, now);
            var hit := set r | r in rows && rows[r].repo == Some(repos[n].id);
            && repos[..0] == []
            && TouchedBy(was, repos[..n + 1]) == TouchedBy(was, repos[..n]) + hit
            && Table(was, Seen(false, repos[..n + 1], false), i, now) ==
                 map r | r in rows :: if rows[r].repo == Some(repos[n].id) then Listed(rows[r], repos[n], i, now)
                   else rows[r]
  {
    assert repos[..n + 1][..n] == repos[..n];
  }

  lemma DroppedIsTable(was: Rows, repos: seq<Repository>, i: InstallationId, now: int)
    ensures var rows := Table(was, Seen(false, repos, false), i, now);
            var listed := set repo | repo in repos :: repo.id;
            Table(was, Seen(false, repos, true), i, now) ==
              map r | r in rows :: Dropped(rows[r], r !in TouchedBy(was, repos), i, listed, now)
  {
    ListedAreEntries(repos);
    forall r | r in was
      ensures var row := Reconciled(was[r], Seen(false, repos, false), i, now);
              var listed := set repo | repo in repos :: repo.id;
              Reconciled(was[r], Seen(false, repos, true), i, now) ==
                Dropped(row, r !in TouchedBy(was, repos), i, listed, now)
    {
    }
  }

  lemma {:induction false} EntryIsListed(repos: seq<Repository>, id: RepoId)
    ensures EntryOf(repos, id).Some? <==> exists repo :: repo in repos && repo.id == id
    ensures EntryOf(repos, id).Some? ==> EntryOf(repos, id).value in repos && EntryOf(repos, id).value.id == id
  {
    if repos != [] {
      EntryIsListed(repos[..|repos| - 1], id);
      assert repos == repos[..|repos| - 1] + [repos[|repos| - 1]];
    }
  }

  lemma ListedAreEntries(repos: seq<Repository>)
    ensures forall id :: id in (set repo | repo in repos :: repo.id) <==> EntryOf(repos, id).Some?
  {
    forall id
      ensures id in (set repo | repo in repos :: repo.id) <==> EntryOf(repos, id).Some?
    {
      EntryIsListed(repos, id);
    }
  }

  // ── what a reconcile promises ──────────────────────────────────────────────

  /** The last entry of a list about its repository. */
  predicate LastEntry(repos: seq<Repository>, k: nat) {
    k < |repos| && forall j :: k < j < |repos| ==> repos[j].id != repos[k].id
  }

  lemma {:induction false} LastEntryWins(repos: seq<Repository>, k: nat)
    requires LastEntry(repos, k)
    ensures EntryOf(repos, repos[k].id) == Some(repos[k])
    decreases |repos|
  {
    var last := |repos| - 1;
    if k < last {
      assert repos[..last][k] == repos[k];
      LastEntryWins(repos[..last], k);
    }
  }

  /**
   After a complete reconcile of a live installation the table agrees with the
   list, whatever it said before: the rows of listed repositories point here with
   the name and access of the last entry about them, other rows that pointed here
   are out of selection, and the rest are as they were.
   */
  lemma CompleteAgreesWithList(rows: Rows, repos: seq<Repository>, i: InstallationId, now: int, r: RowId)
    requires r in rows
    ensures var next := Table(rows, Seen(false, repos, true), i, now)[r];
            && (forall k: nat :: LastEntry(repos, k) && rows[r].repo == Some(repos[k].id) ==>
                  next == Row(rows[r].repo, Some(i), repos[k].owner, repos[k].name, repos[k].branch,
                              Some(if repos[k].archived then Archived else Ok), Some(now)))
            && ((forall repo :: repo in repos ==> rows[r].repo != Some(repo.id)) ==>
                  next == if rows[r].installation == Some(i)
                    then rows[r].(access := Some(NotInInstallation), checkedAt := Some(now)) else rows[r])
  {
    if rows[r].repo.Some? {
      EntryIsListed(repos, rows[r].repo.value);
    }
    forall k: nat | LastEntry(repos, k)
      ensures EntryOf(repos, repos[k].id) == Some(repos[k])
    {
      LastEntryWins(repos, k);
    }
  }

  /**
   Once the App is uninstalled or suspended, exactly the rows that pointed at the
   installation say so, and every other row is as it was: none that points there is
   usable.
   */
  lemma RemovedAppTakesItsRows(rows: Rows, s: Snapshot, i: InstallationId, now: int)
    requires s.Gone? || s.suspended
    ensures Table(rows, s, i, now).Keys == rows.Keys
    ensures forall r :: r in rows && rows[r].installation == Some(i) ==>
              Table(rows, s, i, now)[r] == rows[r].(access := Some(AppRemoved), checkedAt := Some(now))
    ensures forall r :: r in rows && rows[r].installation != Some(i) ==> Table(rows, s, i, now)[r] == rows[r]
    ensures forall r :: r in rows && Table(rows, s, i, now)[r].installation == Some(i) ==>
              Table(rows, s, i, now)[r].access == Some(AppRemoved)
  {
  }

  /** A listed repository's rows say the same after a cut list as after a whole one. */
  lemma CutListAgrees(rows: Rows, repos: seq<Repository>, i: InstallationId, now: int, r: RowId)
    requires r in rows && exists repo :: repo in repos && rows[r].repo == Some(repo.id)
    ensures Table(rows, Seen(false, repos, false), i, now)[r] == Table(rows, Seen(false, repos, true), i, now)[r]
  {
    EntryIsListed(repos, rows[r].repo.value);
  }

  /** An incomplete list takes nothing out of the selection: unlisted rows stay as they were. */
  lemma IncompleteRemovesNothing(rows: Rows, repos: seq<Repository>, i: InstallationId, now: int, r: RowId)
    requires r in rows
    requires forall repo :: repo in repos ==> rows[r].repo != Some(repo.id)
    ensures Table(rows, Seen(false, repos, false), i, now)[r] == rows[r]
  {
    if rows[r].repo.Some? {
      EntryIsListed(repos, rows[r].repo.value);
    }
  }

  function Untimed(rows: Rows): Rows {
    map r | r in rows :: rows[r].(checkedAt := None)
  }

  /** A snapshot applied again says the same, apart from when it was checked. */
  lemma ApplyingTwice(rows: Rows, s: Snapshot, i: InstallationId, first: int, second: int)
    ensures Untimed(Table(Table(rows, s, i, first), s, i, second)) == Untimed(Table(rows, s, i, first))
  {
  }
}
