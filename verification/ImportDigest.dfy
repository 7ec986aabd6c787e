/**
 The rows of a move and the accumulators that verify them: each batch inserts
 the rows that are new, leaves the rest, and adds what it inserted to a count and
 an order-independent 128-bit sum; a commit compares every stream's accumulator
 with the manifest's promise.
 */
module ImportDigest {
  import opened Wrappers

  const MODULUS: nat := 0x1_0000_0000_0000_0000_0000_0000_0000_0000
  const STREAMS: nat := 31
  /** `automationSchedules`, which a move begun by an older backend has no accumulator for. */
  const SCHEDULES: nat := 18

  type ProjectId = nat
  type RowKey = nat

  /** `digest` is the row digest as a number; `stamp` stands for the fields the import stamps, which it leaves out. */
  datatype Doc = Doc(key: RowKey, project: ProjectId, unique: Option<nat>, event: Option<nat>, digest: nat, stamp: int)

  /** A record as sent: it maps to a document or not, and the policy and the schema take that document or not. */
  datatype Record = Malformed | Mapped(doc: Doc, refused: bool, fits: bool)

  type Table = map<RowKey, Doc>

  datatype Outcome = Inserted | Unchanged | Conflict | Rejected

  datatype Acc = Acc(count: nat, sum: nat)

  // ── one batch ──────────────────────────────────────────────────────────────

  predicate UniqueTaken(t: Table, doc: Doc) {
    doc.unique.Some? && exists k :: k in t && t[k].unique == doc.unique
  }

  predicate EventTaken(t: Table, doc: Doc) {
    doc.event.Some? && exists k :: k in t && t[k].event == doc.event
  }

  /** What becomes of one record sent for project `p`. */
  function Decide(t: Table, p: ProjectId, r: Record): Outcome {
    if r.Malformed? then Rejected
    else if r.doc.key in t then
      if t[r.doc.key].project != p then Conflict
      else if t[r.doc.key].digest == r.doc.digest then Unchanged
      else Conflict
    else if r.doc.project != p then Rejected
    else if r.refused then Rejected
    else if UniqueTaken(t, r.doc) then Rejected
    else if EventTaken(t, r.doc) then Conflict
    else if !r.fits then Rejected
    else Inserted
  }

  function Land(t: Table, p: ProjectId, r: Record): Table {
    if Decide(t, p, r) == Inserted then t[r.doc.key := r.doc] else t
  }

  function Batch(t: Table, p: ProjectId, rs: seq<Record>): Table {
    if rs == [] then t else Land(Batch(t, p, rs[..|rs| - 1]), p, rs[|rs| - 1])
  }

  function Outcomes(t: Table, p: ProjectId, rs: seq<Record>): (os: seq<Outcome>)
    ensures |os| == |rs|
  {
    if rs == [] then [] else Outcomes(t, p, rs[..|rs| - 1]) + [Decide(Batch(t, p, rs[..|rs| - 1]), p, rs[|rs| - 1])]
  }

  function Add(a: Acc, digest: nat): Acc {
    Acc(a.count + 1, (a.sum + digest / MODULUS) % MODULUS)
  }

  function Accumulate(t: Table, p: ProjectId, rs: seq<Record>, a: Acc): Acc {
    if rs == [] then a
    else
      var before := Batch(t, p, rs[..|rs| - 1]);
      var sofar := Accumulate(t, p, rs[..|rs| - 1], a);
      if Decide(before, p, rs[|rs| - 1]) == Inserted then Add(sofar, rs[|rs| - 1].doc.digest) else sofar
  }

  /** The indices of the records with an outcome, in order. */
  function At(os: seq<Outcome>, o: Outcome): seq<nat> {
    if os == [] then [] else At(os[..|os| - 1], o) + (if os[|os| - 1] == o then [|os| - 1] else [])
  }

  class Stream {
    var rows: Table
    var count: nat
    var sum: nat

    constructor ()
      ensures rows == map[] && count == 0 && sum == 0
    {
      rows, count, sum := map[], 0, 0;
    }

    method Find(unique: bool, value: Option<nat>) returns (found: bool)
      ensures found <==> value.Some? && exists k ::
              k in rows && (if unique then rows[k].unique else rows[k].event) == value
    {
      found := false;
      if value.None? {
        return;
      }
      var left := rows.Keys;
      while left != {} && !found
        invariant left <= rows.Keys
        invariant !found ==> forall k :: k in rows && k !in left ==>
                  (if unique then rows[k].unique else rows[k].event) != value
        invariant found ==> exists k :: k in rows && (if unique then rows[k].unique else rows[k].event) == value
      {
        var k :| k in left;
        left := left - {k};
        found := (if unique then rows[k].unique else rows[k].event) == value;
      }
    }

    /** One record: inserted, or why not. */
    method Take(p: ProjectId, r: Record) returns (o: Outcome)
      modifies this`rows
      ensures o == Decide(old(rows), p, r) && rows == Land(old(rows), p, r)
      ensures o == Inserted ==> r.Mapped?
    {
      if r.Malformed? {
        return Rejected;
      }
      if r.doc.key in rows {
        if rows[r.doc.key].project != p {
          return Conflict;
        }
        return if rows[r.doc.key].digest == r.doc.digest then Unchanged else Conflict;
      }
      if r.doc.project != p || r.refused {
        return Rejected;
      }
      var taken := Find(true, r.doc.unique);
      if taken {
        return Rejected;
      }
      taken := Find(false, r.doc.event);
      if taken {
        return Conflict;
      }
      if !r.fits {
        return Rejected;
      }
      rows := rows[r.doc.key := r.doc];
      return Inserted;
    }

    /** A batch: only inserted rows are added to the accumulator, and it is stored only when there are some. */
    method ImportRows(p: ProjectId, rs: seq<Record>)
      returns (inserted: nat, same: nat, conflicts: seq<nat>, rejected: seq<nat>)
      modifies this
      ensures rows == Batch(old(rows), p, rs)
      ensures Acc(count, sum) == Accumulate(old(rows), p, rs, Acc(old(count), old(sum)))
      ensures var os := Outcomes(old(rows), p, rs);
              && inserted == |At(os, Inserted)| && same == |At(os, Unchanged)|
              && conflicts == At(os, Conflict) && rejected == At(os, Rejected)
    {
      hide At, Decide, Land, Add;
      var acc := Acc(count, sum);
      inserted, same, conflicts, rejected := 0, 0, [], [];
      ghost var before := rows;
      NoneAt();
      for i := 0 to |rs|
        invariant rows == Batch(before, p, rs[..i]) && count == old(count) && sum == old(sum)
        invariant acc == Accumulate(before, p, rs[..i], Acc(count, sum))
        invariant inserted == 0 ==> acc == Acc(count, sum)
        invariant Tallied(Outcomes(before, p, rs[..i]), inserted, same, conflicts, rejected)
      {
        assert rs[..i + 1][..i] == rs[..i] && rs[..i + 1][i] == rs[i];
        var o := Take(p, rs[i]);
        TallyOne(Outcomes(before, p, rs[..i]), o, inserted, same, conflicts, rejected);
        match o {
          case Inserted =>
            inserted := inserted + 1;
            acc := Add(acc, rs[i].doc.digest);
          case Unchanged => same := same + 1;
          case Conflict => conflicts := conflicts + [i];
          case Rejected => rejected := rejected + [i];
        }
      }
      assert rs[..|rs|] == rs;
      if inserted > 0 {
        count, sum := acc.count, acc.sum;
      }
    }
  }

  predicate Tallied(os: seq<Outcome>, inserted: nat, same: nat, conflicts: seq<nat>, rejected: seq<nat>) {
    inserted == |At(os, Inserted)| && same == |At(os, Unchanged)| && conflicts == At(os, Conflict)
      && rejected == At(os, Rejected)
  }

  lemma NoneAt()
    ensures Tallied([], 0, 0, [], [])
  {
  }

  lemma TallyOne(os: seq<Outcome>, o: Outcome, inserted: nat, same: nat, conflicts: seq<nat>, rejected: seq<nat>)
    requires Tallied(os, inserted, same, conflicts, rejected)
    ensures Tallied(os + [o], inserted + (if o == Inserted then 1 else 0), same + (if o == Unchanged then 1 else 0),
                    conflicts + (if o == Conflict then [|os|] else []),
                      rejected + (if o == Rejected then [|os|] else []))
  {
    assert (os + [o])[..|os|] == os;
  }

  // ── what the accumulator means ─────────────────────────────────────────────

  /** The rows a move inserted: those of its project. */
  function Own(t: Table, p: ProjectId): set<RowKey> {
    set k | k in t && t[k].project == p
  }

  /** The 128-bit prefixes of the digests of some rows, added up. */
  ghost function Sum(t: Table, ks: set<RowKey>): nat
    requires ks <= t.Keys
  {
    if ks == {} then 0
    else
      var k :| k in ks;
      t[k].digest / MODULUS + Sum(t, ks - {k})
  }

  /** The count and digest of what is stored, each row once. */
  ghost function Total(t: Table, p: ProjectId): Acc {
    Acc(|Own(t, p)|, Sum(t, Own(t, p)) % MODULUS)
  }

  lemma {:induction false} SumAnyOrder(t: Table, ks: set<RowKey>, k: RowKey)
    requires ks <= t.Keys && k in ks
    ensures Sum(t, ks) == t[k].digest / MODULUS + Sum(t, ks - {k})
    decreases |ks|
  {
    var first :| first in ks && Sum(t, ks) == t[first].digest / MODULUS + Sum(t, ks - {first});
    if first != k {
      SumAnyOrder(t, ks - {first}, k);
      SumAnyOrder(t, ks - {k}, first);
      assert ks - {first} - {k} == ks - {k} - {first};
    }
  }

  lemma {:induction false} SumSame(t: Table, u: Table, ks: set<RowKey>)
    requires ks <= t.Keys && ks <= u.Keys && forall k :: k in ks ==> t[k].digest == u[k].digest
    ensures Sum(t, ks) == Sum(u, ks)
    decreases |ks|
  {
    if ks != {} {
      var k :| k in ks && Sum(t, ks) == t[k].digest / MODULUS + Sum(t, ks - {k});
      SumSame(t, u, ks - {k});
      SumAnyOrder(u, ks, k);
    }
  }

  lemma ModAdd(a: nat, b: nat)
    ensures (a % MODULUS + b) % MODULUS == (a + b) % MODULUS
  {
    var q := a / MODULUS;
    assert a == q * MODULUS + a % MODULUS;
    AddMultiple(a % MODULUS + b, q);
  }

  lemma {:induction false} AddMultiple(x: nat, q: nat)
    ensures (x + q * MODULUS) % MODULUS == x % MODULUS
    decreases q
  {
    if q > 0 {
      AddMultiple(x, q - 1);
      var y := x + (q - 1) * MODULUS;
      assert x + q * MODULUS == y + MODULUS;
      assert (y + MODULUS) % MODULUS == y % MODULUS;
    }
  }

  lemma InsertTotals(t: Table, p: ProjectId, doc: Doc)
    requires doc.key !in t && doc.project == p
    ensures Total(t[doc.key := doc], p) == Add(Total(t, p), doc.digest)
  {
    hide Sum;
    var u := t[doc.key := doc];
    assert Own(u, p) == Own(t, p) + {doc.key};
    SumAnyOrder(u, Own(u, p), doc.key);
    assert Own(u, p) - {doc.key} == Own(t, p);
    SumSame(t, u, Own(t, p));
    ModAdd(Sum(t, Own(t, p)), doc.digest / MODULUS);
  }

  /** However a batch goes, the accumulator follows the rows that are stored. */
  lemma {:induction false} BatchAccumulates(t: Table, p: ProjectId, rs: seq<Record>)
    ensures Accumulate(t, p, rs, Total(t, p)) == Total(Batch(t, p, rs), p)
    decreases |rs|
  {
    if rs != [] {
      var before := rs[..|rs| - 1];
      BatchAccumulates(t, p, before);
      var r := rs[|rs| - 1];
      if Decide(Batch(t, p, before), p, r) == Inserted {
        InsertTotals(Batch(t, p, before), p, r.doc);
      }
    }
  }

  // ── what a record is answered ──────────────────────────────────────────────

  /** Nobody has the document's unique value. */
  predicate NameFree(t: Table, doc: Doc) {
    doc.unique == None || forall k :: k in t ==> t[k].unique != doc.unique
  }

  /** Nobody has the document's event. */
  predicate EventFree(t: Table, doc: Doc) {
    doc.event == None || forall k :: k in t ==> t[k].event != doc.event
  }

  /**
   What a record is answered, exactly: `inserted` when its row is new, the move's,
   allowed, and free; `unchanged` when the move stored the same row before;
   `conflict` when its key holds anything else, or its event is taken; `rejected`
   otherwise. Only an inserted one writes, and it writes its row.
   */
  lemma RecordAnswered(t: Table, p: ProjectId, r: Record)
    ensures Decide(t, p, r) == Inserted <==>
              && r.Mapped? && r.doc.key !in t && r.doc.project == p && !r.refused && r.fits
              && NameFree(t, r.doc) && EventFree(t, r.doc)
    ensures Decide(t, p, r) == Unchanged <==>
              r.Mapped? && r.doc.key in t && t[r.doc.key].project == p && t[r.doc.key].digest == r.doc.digest
    ensures Decide(t, p, r) == Conflict <==>
              && r.Mapped?
              && if r.doc.key in t then t[r.doc.key].project != p || t[r.doc.key].digest != r.doc.digest
                 else r.doc.project == p && !r.refused && NameFree(t, r.doc) && !EventFree(t, r.doc)
    ensures Land(t, p, r) == if Decide(t, p, r) == Inserted then t[r.doc.key := r.doc] else t
  {
  }

  /** The outcomes of a batch: each record is answered by what the ones before it left stored. */
  lemma {:induction false} OutcomeOfEach(t: Table, p: ProjectId, rs: seq<Record>, i: nat)
    requires i < |rs|
    ensures Outcomes(t, p, rs)[i] == Decide(Batch(t, p, rs[..i]), p, rs[i])
    decreases |rs|
  {
    var last := |rs| - 1;
    if i < last {
      OutcomeOfEach(t, p, rs[..last], i);
      assert rs[..last][..i] == rs[..i];
    }
  }

  /** A batch's answer names exactly the records with an outcome, in the order they were sent. */
  lemma {:induction false} NamesInOrder(os: seq<Outcome>, o: Outcome)
    ensures forall i: nat :: i in At(os, o) <==> i < |os| && os[i] == o
    ensures forall i, j :: 0 <= i < j < |At(os, o)| ==> At(os, o)[i] < At(os, o)[j] < |os|
  {
    if os != [] {
      NamesInOrder(os[..|os| - 1], o);
      var before := At(os[..|os| - 1], o);
      forall i | 0 <= i < |before|
        ensures before[i] < |os| - 1
      {
        assert before[i] in before;
      }
    }
  }

  // ── never overwritten, never counted twice ─────────────────────────────────

  /** A batch changes no stored row, whoever holds it, and every row it adds is one of the move's project. */
  lemma {:induction false} NeverOverwrites(t: Table, p: ProjectId, rs: seq<Record>)
    ensures forall k :: k in t ==> k in Batch(t, p, rs) && Batch(t, p, rs)[k] == t[k]
    ensures forall k :: k in Batch(t, p, rs) && k !in t ==>
              Batch(t, p, rs)[k].project == p && Batch(t, p, rs)[k].key == k
    decreases |rs|
  {
    if rs != [] {
      NeverOverwrites(t, p, rs[..|rs| - 1]);
    }
  }

  /** A batch split anywhere is the batch. */
  lemma {:induction false} Split(t: Table, p: ProjectId, a: seq<Record>, b: seq<Record>, acc: Acc)
    ensures Batch(t, p, a + b) == Batch(Batch(t, p, a), p, b)
    ensures Accumulate(t, p, a + b, acc) == Accumulate(Batch(t, p, a), p, b, Accumulate(t, p, a, acc))
    ensures Outcomes(t, p, a + b) == Outcomes(t, p, a) + Outcomes(Batch(t, p, a), p, b)
    decreases |b|
  {
    if b == [] {
      assert a + b == a;
    } else {
      assert (a + b)[..|a + b| - 1] == a + b[..|b| - 1];
      Split(t, p, a, b[..|b| - 1], acc);
    }
  }

  /** A record that did not go in before does not go in later, and one that did is answered `unchanged`. */
  lemma DecideAgain(t: Table, u: Table, p: ProjectId, r: Record)
    requires forall k :: k in t ==> k in u && u[k] == t[k]
    ensures Decide(t, p, r) != Inserted ==> Decide(u, p, r) != Inserted
    ensures Decide(t, p, r) == Unchanged ==> Decide(u, p, r) == Unchanged
    ensures Decide(t, p, r) == Inserted && r.doc.key in u && u[r.doc.key] == r.doc ==> Decide(u, p, r) == Unchanged
  {
  }

  lemma {:induction false} PrefixLands(t: Table, p: ProjectId, rs: seq<Record>, i: nat)
    requires i < |rs|
    ensures forall k :: k in Batch(t, p, rs[..i]) ==>
            k in Batch(t, p, rs) && Batch(t, p, rs)[k] == Batch(t, p, rs[..i])[k]
    ensures forall k :: k in Batch(t, p, rs[..i + 1]) ==>
            k in Batch(t, p, rs) && Batch(t, p, rs)[k] == Batch(t, p, rs[..i + 1])[k]
    ensures Batch(t, p, rs[..i + 1]) == Land(Batch(t, p, rs[..i]), p, rs[i])
    ensures Outcomes(t, p, rs)[i] == Decide(Batch(t, p, rs[..i]), p, rs[i])
  {
    assert rs[..i + 1][..i] == rs[..i];
    assert rs == rs[..i] + rs[i..] && rs == rs[..i + 1] + rs[i + 1..];
    Split(t, p, rs[..i], rs[i..], Acc(0, 0));
    Split(t, p, rs[..i + 1], rs[i + 1..], Acc(0, 0));
    NeverOverwrites(Batch(t, p, rs[..i]), p, rs[i..]);
    NeverOverwrites(Batch(t, p, rs[..i + 1]), p, rs[i + 1..]);
  }

  /** Sending records again, any of them, in any order and any number of times, adds nothing and counts nothing. */
  lemma {:induction false} ResendAddsNothing(t: Table, p: ProjectId, rs: seq<Record>, again: seq<Record>, acc: Acc)
    requires forall r :: r in again ==> r in rs
    ensures Batch(Batch(t, p, rs), p, again) == Batch(t, p, rs)
    ensures Accumulate(Batch(t, p, rs), p, again, acc) == acc
    ensures Inserted !in Outcomes(Batch(t, p, rs), p, again)
    decreases |again|
  {
    if again != [] {
      var last := |again| - 1;
      ResendAddsNothing(t, p, rs, again[..last], acc);
      assert again[last] in rs;
      var i :| 0 <= i < |rs| && rs[i] == again[last];
      PrefixLands(t, p, rs, i);
      DecideAgain(Batch(t, p, rs[..i]), Batch(t, p, rs), p, rs[i]);
    }
  }

  // ── the order of delivery ──────────────────────────────────────────────────

  /** Every record landed: it was inserted, or a row just like it was there. */
  predicate AllLand(t: Table, p: ProjectId, rs: seq<Record>) {
    forall o :: o in Outcomes(t, p, rs) ==> o == Inserted || o == Unchanged
  }

  /** A record the table has no objection to. */
  predicate Welcome(t: Table, p: ProjectId, r: Record) {
    && r.Mapped?
    && if r.doc.key in t then t[r.doc.key].project == p && t[r.doc.key].digest == r.doc.digest
       else r.doc.project == p && !r.refused && r.fits && !UniqueTaken(t, r.doc) && !EventTaken(t, r.doc)
  }

  /** Two records that can both be stored. */
  predicate Agree(r: Record, q: Record)
    requires r.Mapped? && q.Mapped?
  {
    if r.doc.key == q.doc.key then r.doc.digest == q.doc.digest
    else (r.doc.unique.Some? ==> r.doc.unique != q.doc.unique) && (r.doc.event.Some? ==> r.doc.event != q.doc.event)
  }

  ghost predicate Compatible(t: Table, p: ProjectId, rs: seq<Record>) {
    && (forall r :: r in rs ==> Welcome(t, p, r))
    && (forall r, q :: r in rs && q in rs && r.doc.key !in t && q.doc.key !in t ==> Agree(r, q))
  }

  /** Records with one digest are one row, whatever was stamped on them. */
  ghost predicate NoCollision(rs: seq<Record>) {
    forall r, q ::
        r in rs && q in rs && r.Mapped? && q.Mapped? && r.doc.key == q.doc.key && r.doc.digest == q.doc.digest ==>
      r.doc == q.doc.(stamp := r.doc.stamp) && r.refused == q.refused && r.fits == q.fits
  }

  lemma AllButLast(t: Table, p: ProjectId, rs: seq<Record>)
    requires rs != []
    ensures var before := rs[..|rs| - 1];
            AllLand(t, p, rs) <==>
            AllLand(t, p, before) && Decide(Batch(t, p, before), p, rs[|rs| - 1]) in {Inserted, Unchanged}
  {
    var before := Outcomes(t, p, rs[..|rs| - 1]);
    var all := Outcomes(t, p, rs);
    assert all == before + [all[|all| - 1]];
    forall o | o in before
      ensures o in all
    {
    }
    assert all[|all| - 1] in all;
  }

  predicate Stored(t: Table, p: ProjectId, r: Record) {
    r.Mapped? && r.doc.key in t && t[r.doc.key].digest == r.doc.digest && t[r.doc.key].project == p
  }

  /** Where every record landed, the new rows are exactly the records', each as one of them sent it. */
  lemma {:induction false} LandedRows(t: Table, p: ProjectId, rs: seq<Record>)
    requires AllLand(t, p, rs)
    ensures forall r :: r in rs ==> Stored(Batch(t, p, rs), p, r)
    ensures forall k :: k in Batch(t, p, rs) && k !in t ==>
            exists r :: r in rs && r.Mapped? && r.doc == Batch(t, p, rs)[k] && r.doc.key == k
    decreases |rs|
  {
    if rs != [] {
      var before := rs[..|rs| - 1];
      var last := rs[|rs| - 1];
      AllButLast(t, p, rs);
      LandedRows(t, p, before);
      assert rs == before + [last];
      forall k | k in Batch(t, p, rs) && k !in t
        ensures exists r :: r in rs && r.Mapped? && r.doc == Batch(t, p, rs)[k] && r.doc.key == k
      {
        if k in Batch(t, p, before) {
          NeverOverwrites(Batch(t, p, before), p, [last]);
          var r :| r in before && r.Mapped? && r.doc == Batch(t, p, before)[k] && r.doc.key == k;
          assert r in rs;
        } else {
          assert last in rs;
        }
      }
    }
  }

  /** And they have the records' unique keys and event ids. */
  lemma LandedKeys(t: Table, p: ProjectId, rs: seq<Record>, r: Record)
    requires AllLand(t, p, rs) && NoCollision(rs) && r in rs && r.Mapped? && r.doc.key !in t
    ensures r.doc.key in Batch(t, p, rs)
    ensures Batch(t, p, rs)[r.doc.key] == r.doc.(stamp := Batch(t, p, rs)[r.doc.key].stamp)
  {
    LandedRows(t, p, rs);
    assert Stored(Batch(t, p, rs), p, r);
    var twin :| twin in rs && twin.Mapped? && twin.doc == Batch(t, p, rs)[r.doc.key] && twin.doc.key == r.doc.key;
  }

  /** A unique key is taken once the others landed if the table or one of them has it. */
  lemma TakenAfter(t: Table, p: ProjectId, rs: seq<Record>, doc: Doc)
    requires AllLand(t, p, rs) && NoCollision(rs) && forall r :: r in rs ==> r.Mapped?
    ensures UniqueTaken(Batch(t, p, rs), doc) <==>
            UniqueTaken(t, doc) || (doc.unique.Some?
                        && exists r :: r in rs && r.doc.key !in t && r.doc.unique == doc.unique)
    ensures EventTaken(Batch(t, p, rs), doc) <==>
            EventTaken(t, doc) || (doc.event.Some?
                       && exists r :: r in rs && r.doc.key !in t && r.doc.event == doc.event)
  {
    var u := Batch(t, p, rs);
    NeverOverwrites(t, p, rs);
    LandedRows(t, p, rs);
    forall r | r in rs && r.doc.key !in t
      ensures r.doc.key in u && u[r.doc.key].unique == r.doc.unique && u[r.doc.key].event == r.doc.event
    {
      LandedKeys(t, p, rs, r);
    }
    forall k | k in t
      ensures k in u && u[k] == t[k]
    {
    }
  }

  /** What a record that lands adds to those before it. */
  ghost predicate AgreesWithAll(t: Table, before: seq<Record>, last: Record)
    requires last.Mapped? && forall r :: r in before ==> r.Mapped?
  {
    last.doc.key !in t ==> forall r :: r in before && r.doc.key !in t ==> Agree(r, last) && Agree(last, r)
  }

  /** The last record lands after the others exactly when the table and the others have no objection to it. */
  lemma LastLands(t: Table, p: ProjectId, before: seq<Record>, last: Record)
    requires AllLand(t, p, before) && Compatible(t, p, before) && NoCollision(before + [last])
    ensures Decide(Batch(t, p, before), p, last) in {Inserted, Unchanged} <==>
            Welcome(t, p, last) && AgreesWithAll(t, before, last)
  {
    var u := Batch(t, p, before);
    NeverOverwrites(t, p, before);
    Subset(before, last);
    if last.Mapped? && last.doc.key !in t {
      if last.doc.key in u {
        TwinLands(t, p, before, last);
      } else {
        FreshLands(t, p, before, last);
      }
    }
  }

  lemma Subset(before: seq<Record>, last: Record)
    requires NoCollision(before + [last])
    ensures NoCollision(before)
    ensures forall r :: r in before ==> r in before + [last]
    ensures last in before + [last]
  {
    forall r | r in before
      ensures r in before + [last]
    {
    }
  }

  /** A record whose key another one of the batch brought. */
  lemma TwinLands(t: Table, p: ProjectId, before: seq<Record>, last: Record)
    requires AllLand(t, p, before) && Compatible(t, p, before) && NoCollision(before + [last])
    requires last.Mapped? && last.doc.key in Batch(t, p, before) && last.doc.key !in t
    ensures Decide(Batch(t, p, before), p, last) in {Inserted, Unchanged} <==>
            Welcome(t, p, last) && AgreesWithAll(t, before, last)
  {
    var u := Batch(t, p, before);
    Subset(before, last);
    LandedRows(t, p, before);
    var twin :| twin in before && twin.Mapped? && twin.doc == u[last.doc.key] && twin.doc.key == last.doc.key;
    assert Welcome(t, p, twin);
    assert Stored(u, p, twin);
    if last.doc.digest == twin.doc.digest {
      assert last.doc == twin.doc.(stamp := last.doc.stamp) && last.refused == twin.refused && last.fits == twin.fits;
      assert Welcome(t, p, last);
      forall r | r in before && r.doc.key !in t
        ensures Agree(r, last) && Agree(last, r)
      {
        assert Agree(r, twin) && Agree(twin, r);
      }
    } else {
      assert !Agree(twin, last);
    }
  }

  lemma FreshLands(t: Table, p: ProjectId, before: seq<Record>, last: Record)
    requires AllLand(t, p, before) && Compatible(t, p, before) && NoCollision(before)
    requires last.Mapped? && last.doc.key !in Batch(t, p, before) && last.doc.key !in t
    ensures Decide(Batch(t, p, before), p, last) in {Inserted, Unchanged} <==>
            Welcome(t, p, last) && AgreesWithAll(t, before, last)
  {
    hide Batch;
    LandedRows(t, p, before);
    TakenAfter(t, p, before, last.doc);
    forall r | r in before
      ensures r.doc.key != last.doc.key
    {
      assert Stored(Batch(t, p, before), p, r);
    }
  }

  /** A batch lands entirely exactly when it is compatible, which does not depend on the order of its records. */
  lemma {:induction false} LandsIffCompatible(t: Table, p: ProjectId, rs: seq<Record>)
    requires NoCollision(rs)
    ensures AllLand(t, p, rs) <==> Compatible(t, p, rs)
    decreases |rs|
  {
    if rs != [] {
      var before := rs[..|rs| - 1];
      var last := rs[|rs| - 1];
      assert rs == before + [last];
      Subset(before, last);
      LandsIffCompatible(t, p, before);
      AllButLast(t, p, rs);
      if AllLand(t, p, before) {
        LastLands(t, p, before, last);
        if Welcome(t, p, last) && AgreesWithAll(t, before, last) {
          assert Compatible(t, p, rs);
        }
      }
    }
  }

  /**
   Two deliveries of the same records, however ordered or repeated, agree: both land, store the
   same rows and accumulate the same.
   */
  lemma DeliveryOrdersAgree(t: Table, p: ProjectId, a: seq<Record>, b: seq<Record>)
    requires forall r :: r in a <==> r in b
    requires NoCollision(a) && AllLand(t, p, a)
    ensures AllLand(t, p, b)
    ensures Batch(t, p, b).Keys == Batch(t, p, a).Keys
    ensures forall k :: k in Batch(t, p, a) ==> Batch(t, p, b)[k].digest == Batch(t, p, a)[k].digest
    ensures Accumulate(t, p, b, Total(t, p)) == Accumulate(t, p, a, Total(t, p))
  {
    LandsIffCompatible(t, p, a);
    assert Compatible(t, p, b);
    LandsIffCompatible(t, p, b);
    SameRows(t, p, a, b);
    SameRows(t, p, b, a);
    forall k
      ensures k in Batch(t, p, a) <==> k in Batch(t, p, b)
    {
      assert k in Batch(t, p, a) ==> SameRow(Batch(t, p, a), Batch(t, p, b), k);
      assert k in Batch(t, p, b) ==> SameRow(Batch(t, p, b), Batch(t, p, a), k);
    }
    forall k | k in Batch(t, p, a)
      ensures Batch(t, p, b)[k].digest == Batch(t, p, a)[k].digest
      ensures Batch(t, p, b)[k].project == Batch(t, p, a)[k].project
    {
      assert SameRow(Batch(t, p, a), Batch(t, p, b), k);
    }
    BatchAccumulates(t, p, a);
    BatchAccumulates(t, p, b);
    assert Own(Batch(t, p, a), p) == Own(Batch(t, p, b), p);
    SumSame(Batch(t, p, a), Batch(t, p, b), Own(Batch(t, p, a), p));
  }

  predicate SameRow(t: Table, u: Table, k: RowKey)
    requires k in t
  {
    k in u && u[k].digest == t[k].digest && u[k].project == t[k].project
  }

  lemma SameRows(t: Table, p: ProjectId, a: seq<Record>, b: seq<Record>)
    requires AllLand(t, p, a) && AllLand(t, p, b) && forall r :: r in a ==> r in b
    ensures forall k :: k in Batch(t, p, a) ==> SameRow(Batch(t, p, a), Batch(t, p, b), k)
  {
    NeverOverwrites(t, p, a);
    NeverOverwrites(t, p, b);
    LandedRows(t, p, a);
    LandedRows(t, p, b);
    forall k | k in Batch(t, p, a)
      ensures SameRow(Batch(t, p, a), Batch(t, p, b), k)
    {
      if k !in t {
        var r :| r in a && r.Mapped? && r.doc == Batch(t, p, a)[k] && r.doc.key == k;
        assert Stored(Batch(t, p, b), p, r);
      }
    }
  }

  // ── what a commit promises ─────────────────────────────────────────────────

  datatype StreamRow = StreamRow(stream: nat, expected: Acc, got: Acc)

  ghost predicate OneRowAStream(rows: seq<StreamRow>) {
    && (forall i :: 0 <= i < |rows| ==> rows[i].stream < STREAMS)
    && (forall i, j :: 0 <= i < j < |rows| ==> rows[i].stream != rows[j].stream)
  }

  /** The stream arrived as the manifest promised it. */
  predicate Arrived(rows: seq<StreamRow>, s: nat) {
    exists r :: r in rows && r.stream == s && r.got == r.expected
  }

  predicate Present(rows: seq<StreamRow>, s: nat) {
    exists r :: r in rows && r.stream == s
  }

  lemma {:induction false} StreamsOf(rows: seq<StreamRow>, i: nat) returns (ss: set<nat>)
    requires OneRowAStream(rows) && i <= |rows|
    ensures |ss| == i && forall s: nat :: s in ss <==> exists j :: 0 <= j < i && rows[j].stream == s
  {
    if i == 0 {
      ss := {};
    } else {
      var before := StreamsOf(rows, i - 1);
      ss := before + {rows[i - 1].stream};
      assert rows[i - 1].stream !in before;
    }
  }

  lemma {:induction false} Range(n: nat) returns (ss: set<nat>)
    ensures |ss| == n && forall s: nat :: s in ss <==> s < n
  {
    if n == 0 {
      ss := {};
    } else {
      var before := Range(n - 1);
      ss := before + {n - 1};
    }
  }

  /** With one row a stream, the number of rows says whether any stream is missing. */
  lemma CountsStreams(rows: seq<StreamRow>)
    requires OneRowAStream(rows) && forall s: nat :: s < STREAMS && s != SCHEDULES ==> Present(rows, s)
    ensures |rows| == STREAMS - (if Present(rows, SCHEDULES) then 0 else 1)
  {
    var ss := StreamsOf(rows, |rows|);
    var all := Range(STREAMS);
    forall s: nat | s in all && s != SCHEDULES
      ensures s in ss
    {
      assert Present(rows, s);
      var r :| r in rows && r.stream == s;
      var j :| 0 <= j < |rows| && rows[j] == r;
    }
    if Present(rows, SCHEDULES) {
      var r :| r in rows && r.stream == SCHEDULES;
      var j :| 0 <= j < |rows| && rows[j] == r;
      assert ss == all;
    } else {
      forall j | 0 <= j < |rows|
        ensures rows[j].stream != SCHEDULES
      {
        assert rows[j] in rows;
      }
      assert ss == all - {SCHEDULES};
    }
  }

  /** Every stream arrived as promised; the schedules stream may be absent. */
  ghost predicate AllArrived(rows: seq<StreamRow>) {
    forall s: nat :: s < STREAMS ==> Arrived(rows, s) || (s == SCHEDULES && !Present(rows, s))
  }

  /** The commit's check of the accumulators, and the streams it names when it refuses. */
  method Verify(rows: seq<StreamRow>) returns (verified: bool, mismatched: seq<nat>)
    requires OneRowAStream(rows)
    ensures verified <==> AllArrived(rows)
    ensures forall s: nat :: s in mismatched <==> Present(rows, s) && !Arrived(rows, s)
  {
    mismatched := [];
    var present: set<nat> := {};
    for i := 0 to |rows|
      invariant forall s: nat :: s in present <==> exists j :: 0 <= j < i && rows[j].stream == s
      invariant forall s: nat :: s in mismatched <==>
                exists j :: 0 <= j < i && rows[j].stream == s && rows[j].got != rows[j].expected
    {
      present := present + {rows[i].stream};
      if rows[i].got != rows[i].expected {
        mismatched := mismatched + [rows[i].stream];
      }
    }
    var missing := false;
    for s := 0 to STREAMS
      invariant missing <==> exists m: nat :: m < s && m != SCHEDULES && m !in present
    {
      if s != SCHEDULES && s !in present {
        missing := true;
      }
    }
    var expectedLength := STREAMS - (if SCHEDULES in present then 0 else 1);
    verified := |rows| == expectedLength && !missing && |mismatched| == 0;
    PresentArrived(rows, present, mismatched);
    if !missing {
      CountsStreams(rows);
    }
    if |mismatched| > 0 {
      assert mismatched[0] in mismatched;
    }
  }

  lemma PresentArrived(rows: seq<StreamRow>, present: set<nat>, mismatched: seq<nat>)
    requires OneRowAStream(rows)
    requires forall s: nat :: s in present <==> exists j :: 0 <= j < |rows| && rows[j].stream == s
    requires forall s: nat :: s in mismatched <==>
             exists j :: 0 <= j < |rows| && rows[j].stream == s && rows[j].got != rows[j].expected
    ensures forall s: nat :: s in present <==> Present(rows, s)
    ensures forall s: nat :: s in mismatched <==> Present(rows, s) && !Arrived(rows, s)
    ensures forall s: nat :: s in present ==> s < STREAMS
  {
    forall s: nat
      ensures s in present <==> Present(rows, s)
      ensures s in mismatched <==> Present(rows, s) && !Arrived(rows, s)
    {
      if Present(rows, s) {
        var r :| r in rows && r.stream == s;
        var i :| 0 <= i < |rows| && rows[i] == r;
        assert s in present;
      }
      if s in present {
        var j :| 0 <= j < |rows| && rows[j].stream == s;
        assert rows[j] in rows;
      }
    }
  }

  /** A hidden project's import: every stream's table, and the accumulators of one move. */
  datatype Db = Db(tables: map<nat, Table>, promised: map<nat, Acc>, got: map<nat, Acc>)

  datatype Event = SendRows(stream: nat, rows: seq<Record>) | OthersWrite(stream: nat, key: RowKey, doc: Option<Doc>)

  /** Others write any row but the hidden project's. */
  function Next(db: Db, p: ProjectId, e: Event): Db {
    match e
    case SendRows(s, rs) =>
      if s in db.got && s in db.tables
      then db.(tables := db.tables[s := Batch(db.tables[s], p, rs)],
             got := db.got[s := Accumulate(db.tables[s], p, rs, db.got[s])])
      else db
    case OthersWrite(s, k, doc) =>
      if s !in db.tables || (k in db.tables[s] && db.tables[s][k].project == p) || (doc.Some? && doc.value.project == p)
      then db
      else db.(tables := db.tables[s := if doc.Some? then db.tables[s][k := doc.value] else db.tables[s] - {k}])
  }

  /** A move that was just reserved. */
  ghost predicate Reserved(db: Db, p: ProjectId) {
    && db.got.Keys == db.promised.Keys && db.got.Keys <= db.tables.Keys
    && (forall s :: s in db.got ==> db.got[s] == Acc(0, 0))
    && (forall s :: s in db.tables ==> Own(db.tables[s], p) == {})
  }

  ghost predicate Faithful(db: Db, p: ProjectId) {
    && db.got.Keys == db.promised.Keys && db.got.Keys <= db.tables.Keys
    && (forall s :: s in db.got ==> db.got[s] == Total(db.tables[s], p))
    && (forall s :: s in db.tables && s !in db.got ==> Own(db.tables[s], p) == {})
  }

  ghost predicate Run(states: seq<Db>, events: seq<Event>, p: ProjectId) {
    && |states| == |events| + 1 && Reserved(states[0], p)
    && forall i :: 0 <= i < |events| ==> states[i + 1] == Next(states[i], p, events[i])
  }

  lemma SentIsFaithful(db: Db, p: ProjectId, s: nat, rs: seq<Record>)
    requires Faithful(db, p)
    ensures Faithful(Next(db, p, SendRows(s, rs)), p) && Next(db, p, SendRows(s, rs)).promised == db.promised
  {
    hide Batch, Accumulate, Total, Own;
    if s in db.got {
      BatchAccumulates(db.tables[s], p, rs);
    }
  }

  /** A row written or deleted outside the project changes nothing of the project's own. */
  lemma OthersOwnRows(t: Table, p: ProjectId, k: RowKey, doc: Option<Doc>)
    requires !(k in t && t[k].project == p) && !(doc.Some? && doc.value.project == p)
    ensures var u := if doc.Some? then t[k := doc.value] else t - {k};
            Own(u, p) == Own(t, p) && Total(u, p) == Total(t, p)
  {
    var u := if doc.Some? then t[k := doc.value] else t - {k};
    assert Own(u, p) == Own(t, p);
    SumSame(t, u, Own(t, p));
  }

  lemma OthersAreFaithful(db: Db, p: ProjectId, s: nat, k: RowKey, doc: Option<Doc>)
    requires Faithful(db, p)
    ensures Faithful(Next(db, p, OthersWrite(s, k, doc)), p)
    ensures Next(db, p, OthersWrite(s, k, doc)).promised == db.promised
  {
    hide Total, Own;
    if s in db.tables && !(k in db.tables[s] && db.tables[s][k].project == p)
       && !(doc.Some? && doc.value.project == p)
    {
      OthersOwnRows(db.tables[s], p, k, doc);
    }
  }

  lemma NextIsFaithful(db: Db, p: ProjectId, e: Event)
    requires Faithful(db, p)
    ensures Faithful(Next(db, p, e), p) && Next(db, p, e).promised == db.promised
  {
    hide Next, Faithful;
    match e
    case SendRows(s, rs) => SentIsFaithful(db, p, s, rs);
    case OthersWrite(s, k, doc) => OthersAreFaithful(db, p, s, k, doc);
  }

  /**
   In every run of batches, re-sent, split or reordered, each accumulator is the fold over the
   move's distinct rows.
   */
  lemma {:induction false} AccumulatorsFollowTheRows(states: seq<Db>, events: seq<Event>, p: ProjectId, k: nat)
    requires Run(states, events, p) && k <= |events|
    ensures Faithful(states[k], p) && states[k].promised == states[0].promised
    decreases k
  {
    if k == 0 {
      forall s | s in states[0].got
        ensures states[0].got[s] == Total(states[0].tables[s], p)
      {
        assert Own(states[0].tables[s], p) == {};
      }
    } else {
      AccumulatorsFollowTheRows(states, events, p, k - 1);
      NextIsFaithful(states[k - 1], p, events[k - 1]);
    }
  }

  /** The accumulator rows of the move, as the commit reads them. */
  ghost predicate RowsOf(db: Db, rows: seq<StreamRow>) {
    && OneRowAStream(rows)
    && (forall r :: r in rows ==>
         r.stream in db.got && r.stream in db.promised && r.got == db.got[r.stream]
         && r.expected == db.promised[r.stream])
    && (forall s :: s in db.got ==> Present(rows, s))
  }

  /**
   A verified commit of a move never shown: in every stream exactly the promised count and digest
   is stored, in an absent one nothing.
   */
  lemma VerifiedMeansAsPromised(states: seq<Db>, events: seq<Event>, p: ProjectId, k: nat, rows: seq<StreamRow>)
    requires Run(states, events, p) && k <= |events| && RowsOf(states[k], rows)
    requires forall s: nat :: s < STREAMS ==> Arrived(rows, s) || (s == SCHEDULES && !Present(rows, s))
    ensures forall s: nat :: s < STREAMS && s in states[k].tables ==>
              if s in states[0].promised then Total(states[k].tables[s], p) == states[0].promised[s]
              else Own(states[k].tables[s], p) == {}
  {
    AccumulatorsFollowTheRows(states, events, p, k);
    forall s | s < STREAMS && s in states[k].tables && s in states[0].promised
      ensures Total(states[k].tables[s], p) == states[0].promised[s]
    {
      assert Present(rows, s);
      assert Arrived(rows, s);
    }
  }
}
