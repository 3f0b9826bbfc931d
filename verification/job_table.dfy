/** Adding jobs: the duplicate check of the queue, alone and inside a monitor round's transaction. */
module JobTable {
  import opened Jobs
  import opened Machine

  /** A job row; ethTx is the transaction hash of its Ethereum log, if it has one. */
  datatype Row = Row(related: string, kind: string, status: JobStatus, ethTx: Option<string>)

  const ACCOUNT_UPDATE := "accountUpdateBalances"

  predicate SamePair(r: Row, j: Row) {
    r.related == j.related && r.kind == j.kind
  }

  /** The type's rows are told apart by their transaction, not by their status. */
  predicate ByTransaction(j: Row) {
    j.ethTx.Some? && j.kind != ACCOUNT_UPDATE
  }

  /** One row of the duplicate query. */
  predicate Duplicates(r: Row, j: Row) {
    SamePair(r, j) && if ByTransaction(j) then r.ethTx.None? || r.ethTx == j.ethTx else r.status.Active?
  }

  predicate Refused(duplicated: set<string>, rows: seq<Row>, j: Row) {
    j.kind !in duplicated && exists i :: 0 <= i < |rows| && Duplicates(rows[i], j)
  }

  function Added(duplicated: set<string>, rows: seq<Row>, j: Row): seq<Row> {
    if Refused(duplicated, rows, j) then rows else rows + [j.(status := Active)]
  }

  /** The jobs table of one configuration. */
  class JobsTable {
    const duplicated: set<string> // types whose configuration switches the check off
    var rows: seq<Row>

    constructor (duplicated: set<string>)
      ensures this.duplicated == duplicated && rows == []
    {
      this.duplicated, rows := duplicated, [];
    }

    method CheckDuplicated(j: Row) returns (found: bool)
      ensures found <==> exists i :: 0 <= i < |rows| && Duplicates(rows[i], j)
    {
      found := exists i :: 0 <= i < |rows| && Duplicates(rows[i], j);
    }

    /** `Queue.Add` on its own: false is the duplicate error. */
    method Add(j: Row) returns (ok: bool)
      modifies this
      ensures rows == Added(duplicated, old(rows), j)
      ensures ok <==> !Refused(duplicated, old(rows), j)
    {
      if j.kind !in duplicated {
        var found := CheckDuplicated(j);
        if found {
          return false;
        }
      }
      rows := rows + [j.(status := Active)];
      return true;
    }

    /** A monitor round's transaction: every check reads committed rows only, all inserts commit together. */
    method CommitRound(jobs: seq<Row>)
      modifies this
      ensures rows == old(rows) + Accepted(duplicated, old(rows), jobs)
    {
      var inserted := [];
      for i := 0 to |jobs|
        invariant inserted == Accepted(duplicated, rows, jobs[..i])
        invariant rows == old(rows)
      {
        assert jobs[..i + 1][..i] == jobs[..i];
        var found := CheckDuplicated(jobs[i]);
        if jobs[i].kind in duplicated || !found {
          inserted := inserted + [jobs[i].(status := Active)];
        }
      }
      assert jobs[..|jobs|] == jobs;
      rows := rows + inserted;
    }
  }

  /** The jobs a round inserts. */
  function Accepted(duplicated: set<string>, rows: seq<Row>, jobs: seq<Row>): seq<Row> {
    if jobs == [] then [] else
      var j := jobs[|jobs| - 1];
      Accepted(duplicated, rows, jobs[..|jobs| - 1])
        + if Refused(duplicated, rows, j) then [] else [j.(status := Active)]
  }

  // ---- the invariant ----

  /** Two rows of a checked type that may not be in the table together. */
  predicate Clash(r: Row, j: Row) {
    SamePair(r, j) &&
    if r.kind == ACCOUNT_UPDATE || r.ethTx.None? || j.ethTx.None? then
      // Two active rows, one of which has no Ethereum log (or the type ignores them).
      r.status.Active? && j.status.Active?
    else
      // Two rows of one transaction.
      r.ethTx == j.ethTx
  }

  ghost predicate NoClash(duplicated: set<string>, rows: seq<Row>) {
    forall i, j :: 0 <= i < j < |rows| && rows[i].kind !in duplicated ==> !Clash(rows[i], rows[j])
  }

  /** What the invariant says: an active job without a log is the only active one of its pair, and
      no two logged jobs of a pair share a transaction. */
  lemma NoClashMeaning(duplicated: set<string>, rows: seq<Row>, i: nat, j: nat)
    requires NoClash(duplicated, rows) && i < |rows| && j < |rows| && i != j
    requires SamePair(rows[i], rows[j]) && rows[i].kind !in duplicated
    ensures rows[i].status.Active? && rows[i].ethTx.None? ==> !rows[j].status.Active?
    ensures rows[i].ethTx.Some? && rows[i].ethTx == rows[j].ethTx ==> rows[i].kind == ACCOUNT_UPDATE
  {
    if i < j {
      assert !Clash(rows[i], rows[j]);
    } else {
      assert !Clash(rows[j], rows[i]);
    }
  }

  /** A job that passes the check clashes with no row of the table. */
  lemma PassedCheck(duplicated: set<string>, rows: seq<Row>, j: Row, i: nat)
    requires !Refused(duplicated, rows, j) && j.kind !in duplicated && i < |rows|
    ensures !Clash(rows[i], j.(status := Active))
  {
    assert !Duplicates(rows[i], j);
  }

  datatype Action =
    | AddJob(j: Row)
    | Save(i: nat, s: JobStatus)  // a worker, or the user's reactivation, saves a full copy of a row
    | Cancel(related: string)

  function Next(duplicated: set<string>, rows: seq<Row>, a: Action): seq<Row> {
    match a
    case AddJob(j) => Added(duplicated, rows, j)
    case Save(i, s) => if i < |rows| then rows[i := rows[i].(status := s)] else rows
    case Cancel(related) =>
      seq(|rows|, i requires 0 <= i < |rows| =>
        if rows[i].related == related && rows[i].status.Active? then rows[i].(status := Canceled) else rows[i])
  }

  function Run(duplicated: set<string>, rows: seq<Row>, actions: seq<Action>): seq<Row>
    decreases |actions|
  {
    if actions == [] then rows else Run(duplicated, Next(duplicated, rows, actions[0]), actions[1..])
  }

  /** Two active rows of one pair that may not be active together. */
  predicate ClashActive(r: Row, j: Row) {
    SamePair(r, j) && (r.kind == ACCOUNT_UPDATE || r.ethTx.None? || j.ethTx.None?)
  }

  /** The save makes an inactive row active beside an active one that it clashes with. */
  predicate Revives(duplicated: set<string>, rows: seq<Row>, a: Action) {
    && a.Save? && a.i < |rows| && a.s.Active? && !rows[a.i].status.Active? && rows[a.i].kind !in duplicated
    && exists k :: 0 <= k < |rows| && k != a.i && rows[k].status.Active? && ClashActive(rows[a.i], rows[k])
  }

  lemma ClashNeedsActive(r: Row, j: Row, r': Row, j': Row)
    requires r'.(status := Active) == r.(status := Active) && j'.(status := Active) == j.(status := Active)
    requires (r'.status.Active? ==> r.status.Active?) && (j'.status.Active? ==> j.status.Active?)
    ensures Clash(r', j') ==> Clash(r, j)
  {
  }

  lemma AddKeepsDedup(duplicated: set<string>, rows: seq<Row>, a: Action)
    requires NoClash(duplicated, rows) && !a.Save?
    ensures NoClash(duplicated, Next(duplicated, rows, a))
  {
    var rows' := Next(duplicated, rows, a);
    forall i, j | 0 <= i < j < |rows'| && rows'[i].kind !in duplicated
      ensures !Clash(rows'[i], rows'[j])
    {
      if j < |rows| {
        ClashNeedsActive(rows[i], rows[j], rows'[i], rows'[j]);
      } else if SamePair(rows'[i], rows'[j]) {
        PassedCheck(duplicated, rows, a.j, i);
      }
    }
  }

  lemma SaveKeepsDedup(duplicated: set<string>, rows: seq<Row>, a: Action)
    requires NoClash(duplicated, rows) && a.Save? && !Revives(duplicated, rows, a)
    ensures NoClash(duplicated, Next(duplicated, rows, a))
  {
    var rows' := Next(duplicated, rows, a);
    forall i, j | 0 <= i < j < |rows'| && rows'[i].kind !in duplicated
      ensures !Clash(rows'[i], rows'[j])
    {
      assert !Clash(rows[i], rows[j]);
      if a.i == i && Clash(rows'[i], rows'[j]) {
        assert rows[j].status.Active? && ClashActive(rows[i], rows[j]);
      }
      if a.i == j && Clash(rows'[i], rows'[j]) {
        assert rows[i].status.Active? && ClashActive(rows[j], rows[i]);
      }
    }
  }

  lemma RevivalClashes(duplicated: set<string>, rows: seq<Row>, a: Action)
    requires Revives(duplicated, rows, a)
    ensures !NoClash(duplicated, Next(duplicated, rows, a))
  {
    var rows' := Next(duplicated, rows, a);
    var k :| 0 <= k < |rows| && k != a.i && rows[k].status.Active? && ClashActive(rows[a.i], rows[k]);
    if k < a.i {
      assert Clash(rows'[k], rows'[a.i]);
    } else {
      assert Clash(rows'[a.i], rows'[k]);
    }
  }

  /** One committed add, save or cancel keeps the invariant exactly if it is not such a save. */
  lemma DedupStepIff(duplicated: set<string>, rows: seq<Row>, a: Action)
    requires NoClash(duplicated, rows)
    ensures NoClash(duplicated, Next(duplicated, rows, a)) <==> !Revives(duplicated, rows, a)
  {
    if Revives(duplicated, rows, a) {
      RevivalClashes(duplicated, rows, a);
    } else if a.Save? {
      SaveKeepsDedup(duplicated, rows, a);
    } else {
      AddKeepsDedup(duplicated, rows, a);
    }
  }

  /** The invariant in every state along a run. */
  ghost predicate AlwaysNoClash(duplicated: set<string>, rows: seq<Row>, actions: seq<Action>)
    decreases |actions|
  {
    && NoClash(duplicated, rows)
    && (actions != [] ==> AlwaysNoClash(duplicated, Next(duplicated, rows, actions[0]), actions[1..]))
  }

  predicate EverRevives(duplicated: set<string>, rows: seq<Row>, actions: seq<Action>)
    decreases |actions|
  {
    actions != [] &&
    (Revives(duplicated, rows, actions[0]) || EverRevives(duplicated, Next(duplicated, rows, actions[0]), actions[1..]))
  }

  /** Deduplication over any sequence of committed adds, saves and cancels: the invariant holds all along
      exactly if no stale save revives a row beside a job added meanwhile. */
  lemma {:induction false} DedupRunIff(duplicated: set<string>, rows: seq<Row>, actions: seq<Action>)
    requires NoClash(duplicated, rows)
    ensures AlwaysNoClash(duplicated, rows, actions) <==> !EverRevives(duplicated, rows, actions)
    decreases |actions|
  {
    if actions != [] {
      DedupStepIff(duplicated, rows, actions[0]);
      if !Revives(duplicated, rows, actions[0]) {
        DedupRunIff(duplicated, Next(duplicated, rows, actions[0]), actions[1..]);
      }
    }
  }

  /** Whoever saves an active copy finds the row still active: a worker to retry a job, never a reactivation. */
  predicate FreshSaves(duplicated: set<string>, rows: seq<Row>, actions: seq<Action>)
    decreases |actions|
  {
    actions != [] ==>
      var a := actions[0];
      && (a.Save? && a.i < |rows| && a.s.Active? ==> rows[a.i].status.Active?)
      && FreshSaves(duplicated, Next(duplicated, rows, a), actions[1..])
  }

  /** So it holds in every run without a stale save. */
  lemma {:induction false} DedupRun(duplicated: set<string>, rows: seq<Row>, actions: seq<Action>)
    requires NoClash(duplicated, rows) && FreshSaves(duplicated, rows, actions)
    ensures NoClash(duplicated, Run(duplicated, rows, actions))
    decreases |actions|
  {
    if actions != [] {
      DedupStepIff(duplicated, rows, actions[0]);
      DedupRun(duplicated, Next(duplicated, rows, actions[0]), actions[1..]);
    }
  }

  /** A job is canceled after its worker read it again for a retry, a second one is added, the worker saves. */
  lemma StaleSaveExample(j: Row)
    requires j.ethTx.None?
    ensures var rows := Run({}, [], [AddJob(j), Cancel(j.related), AddJob(j), Save(0, Active)]);
            var active := j.(status := Active);
            rows == [active, active] && !NoClash({}, rows)
  {
    var active, canceled := j.(status := Active), j.(status := Canceled);
    var a, b, c := AddJob(j), Cancel(j.related), Save(0, Active);
    assert Next({}, [], a) == [active];
    assert Next({}, [active], b) == [canceled];
    assert Next({}, [canceled], a) == [canceled, active] by {
      assert !Duplicates(canceled, j);
    }
    assert Next({}, [canceled, active], c) == [active, active];
    assert [a, b, a, c][1..] == [b, a, c] && [b, a, c][1..] == [a, c] && [a, c][1..] == [c] && [c][1..] == [];
    assert Run({}, [canceled, active], [c]) == [active, active];
    assert Run({}, [canceled], [a, c]) == [active, active];
    assert Run({}, [active], [b, a, c]) == [active, active];
    assert Clash([active, active][0], [active, active][1]);
  }

  // ---- what is accepted ----

  /** A log of a new transaction is accepted although the pair has rows of other ones, whatever their status; a
      log whose transaction the pair has seen, or a pair with an unlogged row, refuses it. */
  lemma LogAccepted(rows: seq<Row>, j: Row)
    requires j.ethTx.Some? && j.kind != "accountUpdateBalances"
    ensures Added({}, rows, j) == rows + [Row(j.related, j.kind, Active, j.ethTx)] <==>
            forall i :: 0 <= i < |rows| && rows[i].related == j.related && rows[i].kind == j.kind ==>
              rows[i].ethTx.Some? && rows[i].ethTx != j.ethTx
  {
    var added := Added({}, rows, j);
    if forall i :: 0 <= i < |rows| && rows[i].related == j.related && rows[i].kind == j.kind ==>
         rows[i].ethTx.Some? && rows[i].ethTx != j.ethTx {
      assert !Refused({}, rows, j);
    } else {
      var i :| 0 <= i < |rows| && rows[i].related == j.related && rows[i].kind == j.kind
               && !(rows[i].ethTx.Some? && rows[i].ethTx != j.ethTx);
      assert Duplicates(rows[i], j);
      assert |added| == |rows|;
    }
  }

  /** Any other job is accepted exactly while no active row of its pair is there. */
  lemma JobAccepted(rows: seq<Row>, j: Row)
    requires j.ethTx.None? || j.kind == "accountUpdateBalances"
    ensures Added({}, rows, j) == rows + [Row(j.related, j.kind, Active, j.ethTx)] <==>
            forall i :: 0 <= i < |rows| && rows[i].related == j.related && rows[i].kind == j.kind ==>
              rows[i].status != Active
  {
    var added := Added({}, rows, j);
    if forall i :: 0 <= i < |rows| && rows[i].related == j.related && rows[i].kind == j.kind ==>
         rows[i].status != Active {
      assert !Refused({}, rows, j);
    } else {
      var i :| 0 <= i < |rows| && rows[i].related == j.related && rows[i].kind == j.kind && rows[i].status == Active;
      assert Duplicates(rows[i], j);
      assert |added| == |rows|;
    }
  }

  /** Types whose check is switched off are always accepted. */
  lemma UncheckedAccepted(duplicated: set<string>, rows: seq<Row>, j: Row)
    requires j.kind in duplicated
    ensures Added(duplicated, rows, j) == rows + [Row(j.related, j.kind, Active, j.ethTx)]
  {
  }

  // ---- rounds ----

  /** Two offered jobs that both pass against the committed rows, and clash once they are inserted. */
  predicate OfferedClash(duplicated: set<string>, rows: seq<Row>, r: Row, j: Row) {
    && r.kind !in duplicated && !Refused(duplicated, rows, r) && !Refused(duplicated, rows, j)
    && SamePair(r, j)
    && (r.kind == ACCOUNT_UPDATE || r.ethTx.None? || j.ethTx.None? || r.ethTx == j.ethTx)
  }

  ghost predicate OffersApart(duplicated: set<string>, rows: seq<Row>, jobs: seq<Row>) {
    forall p, q :: 0 <= p < q < |jobs| ==> !OfferedClash(duplicated, rows, jobs[p], jobs[q])
  }

  /** A round inserts the offered jobs that pass, and nothing else. */
  lemma {:induction false} AcceptedMembers(duplicated: set<string>, rows: seq<Row>, jobs: seq<Row>)
    ensures forall p :: 0 <= p < |jobs| && !Refused(duplicated, rows, jobs[p]) ==>
              jobs[p].(status := Active) in Accepted(duplicated, rows, jobs)
    ensures forall x :: x in Accepted(duplicated, rows, jobs) ==>
              exists p :: 0 <= p < |jobs| && !Refused(duplicated, rows, jobs[p]) && x == jobs[p].(status := Active)
  {
    if jobs != [] {
      var n := |jobs| - 1;
      AcceptedMembers(duplicated, rows, jobs[..n]);
      forall x | x in Accepted(duplicated, rows, jobs)
        ensures exists p :: 0 <= p < |jobs| && !Refused(duplicated, rows, jobs[p]) && x == jobs[p].(status := Active)
      {
        if x in Accepted(duplicated, rows, jobs[..n]) {
          var p :| 0 <= p < n && !Refused(duplicated, rows, jobs[..n][p]) && x == jobs[..n][p].(status := Active);
          assert jobs[p] == jobs[..n][p];
        }
      }
      forall p | 0 <= p < n && !Refused(duplicated, rows, jobs[p])
        ensures jobs[p].(status := Active) in Accepted(duplicated, rows, jobs)
      {
        assert jobs[..n][p] == jobs[p];
      }
    }
  }

  /** Adding one job to a table without clashes. */
  lemma AppendIff(duplicated: set<string>, rows: seq<Row>, j: Row)
    ensures NoClash(duplicated, rows + [j]) <==>
            NoClash(duplicated, rows) && forall x :: x in rows && x.kind !in duplicated ==> !Clash(x, j)
  {
    var all := rows + [j];
    if NoClash(duplicated, all) {
      forall x | x in rows && x.kind !in duplicated ensures !Clash(x, j) {
        var i :| 0 <= i < |rows| && rows[i] == x;
        assert !Clash(all[i], all[|rows|]);
      }
      forall i, k | 0 <= i < k < |rows| && rows[i].kind !in duplicated ensures !Clash(rows[i], rows[k]) {
        assert !Clash(all[i], all[k]);
      }
    }
  }

  lemma OffersApartStep(duplicated: set<string>, rows: seq<Row>, jobs: seq<Row>)
    requires jobs != []
    ensures var n := |jobs| - 1;
            OffersApart(duplicated, rows, jobs) <==>
            OffersApart(duplicated, rows, jobs[..n])
            && forall p :: 0 <= p < n ==> !OfferedClash(duplicated, rows, jobs[p], jobs[n])
  {
    var n := |jobs| - 1;
    if OffersApart(duplicated, rows, jobs) {
      forall p, q | 0 <= p < q < n ensures !OfferedClash(duplicated, rows, jobs[..n][p], jobs[..n][q]) {
        assert !OfferedClash(duplicated, rows, jobs[p], jobs[q]);
      }
    } else {
      var p, q :| 0 <= p < q < |jobs| && OfferedClash(duplicated, rows, jobs[p], jobs[q]);
      if q < n {
        assert OfferedClash(duplicated, rows, jobs[..n][p], jobs[..n][q]);
      }
    }
  }

  /** The inserted jobs clash with the last offered one exactly as the offered ones do. */
  lemma LastOffer(duplicated: set<string>, rows: seq<Row>, jobs: seq<Row>, j: Row)
    requires !Refused(duplicated, rows, j)
    ensures (forall x :: x in Accepted(duplicated, rows, jobs) && x.kind !in duplicated ==>
               !Clash(x, j.(status := Active)))
       <==> forall p :: 0 <= p < |jobs| ==> !OfferedClash(duplicated, rows, jobs[p], j)
  {
    AcceptedMembers(duplicated, rows, jobs);
    if forall p :: 0 <= p < |jobs| ==> !OfferedClash(duplicated, rows, jobs[p], j) {
      forall x | x in Accepted(duplicated, rows, jobs) && x.kind !in duplicated
        ensures !Clash(x, j.(status := Active))
      {
        var p :| 0 <= p < |jobs| && !Refused(duplicated, rows, jobs[p]) && x == jobs[p].(status := Active);
        assert !OfferedClash(duplicated, rows, jobs[p], j);
      }
    } else {
      var p :| 0 <= p < |jobs| && OfferedClash(duplicated, rows, jobs[p], j);
      assert Clash(jobs[p].(status := Active), j.(status := Active));
    }
  }

  lemma PassedClashesWithNone(duplicated: set<string>, rows: seq<Row>, j: Row)
    requires !Refused(duplicated, rows, j)
    ensures forall x :: x in rows && x.kind !in duplicated ==> !Clash(x, j.(status := Active))
  {
    forall x | x in rows && x.kind !in duplicated && SamePair(x, j) ensures !Clash(x, j.(status := Active)) {
      var i :| 0 <= i < |rows| && rows[i] == x;
      PassedCheck(duplicated, rows, j, i);
    }
  }

  /** Inserting one more job into the round. */
  lemma InsertIff(duplicated: set<string>, rows: seq<Row>, jobs: seq<Row>, j: Row)
    requires !Refused(duplicated, rows, j)
    ensures var all := rows + Accepted(duplicated, rows, jobs);
            NoClash(duplicated, all + [j.(status := Active)]) <==>
            NoClash(duplicated, all) && forall p :: 0 <= p < |jobs| ==> !OfferedClash(duplicated, rows, jobs[p], j)
  {
    AppendIff(duplicated, rows + Accepted(duplicated, rows, jobs), j.(status := Active));
    LastOffer(duplicated, rows, jobs, j);
    PassedClashesWithNone(duplicated, rows, j);
  }

  /** The checks of a round see committed rows only: the table stays free of clashes exactly if no two of the
      jobs the round offers pass and clash with each other. */
  lemma {:induction false} RoundKeepsDedupIff(duplicated: set<string>, rows: seq<Row>, jobs: seq<Row>)
    requires NoClash(duplicated, rows)
    ensures NoClash(duplicated, rows + Accepted(duplicated, rows, jobs)) <==> OffersApart(duplicated, rows, jobs)
  {
    if jobs == [] {
      assert rows + [] == rows;
    } else {
      var n := |jobs| - 1;
      var j, before := jobs[n], Accepted(duplicated, rows, jobs[..n]);
      var j' := j.(status := Active);
      RoundKeepsDedupIff(duplicated, rows, jobs[..n]);
      OffersApartStep(duplicated, rows, jobs);
      if Refused(duplicated, rows, j) {
        assert rows + Accepted(duplicated, rows, jobs) == rows + before;
      } else {
        assert rows + Accepted(duplicated, rows, jobs) == (rows + before) + [j'];
        InsertIff(duplicated, rows, jobs[..n], j);
      }
    }
  }

  /** A log of a checked type that two queries of one round return is inserted twice. */
  lemma RepeatedLogExample(rows: seq<Row>, j: Row)
    requires NoClash({}, rows) && ByTransaction(j) && !Refused({}, rows, j)
    ensures !NoClash({}, rows + Accepted({}, rows, [j, j]))
  {
    RoundKeepsDedupIff({}, rows, [j, j]);
    assert OfferedClash({}, rows, [j, j][0], [j, j][1]);
  }

  /** Every log job of a scan is accounted for: the pair has a row of its transaction, or one without a log. */
  ghost predicate Seen(rows: seq<Row>, j: Row) {
    exists i :: 0 <= i < |rows| && Duplicates(rows[i], j)
  }

  lemma SeenKept(duplicated: set<string>, rows: seq<Row>, a: Action, j: Row)
    requires ByTransaction(j) && Seen(rows, j)
    ensures Seen(Next(duplicated, rows, a), j)
  {
    var i :| 0 <= i < |rows| && Duplicates(rows[i], j);
    assert Duplicates(Next(duplicated, rows, a)[i], j);
  }

  lemma {:induction false} SeenForever(duplicated: set<string>, rows: seq<Row>, actions: seq<Action>, j: Row)
    requires ByTransaction(j) && Seen(rows, j)
    ensures Seen(Run(duplicated, rows, actions), j)
    decreases |actions|
  {
    if actions != [] {
      SeenKept(duplicated, rows, actions[0], j);
      SeenForever(duplicated, Next(duplicated, rows, actions[0]), actions[1..], j);
    }
  }

  /** Rescanning: a log job of a checked type that was once offered to the table is refused ever after,
      whatever was added, finished or canceled in between. */
  lemma RescanAddsNothing(duplicated: set<string>, rows: seq<Row>, j: Row, actions: seq<Action>)
    requires ByTransaction(j) && j.kind !in duplicated
    ensures var later := Run(duplicated, Added(duplicated, rows, j), actions);
            Added(duplicated, later, j) == later
  {
    var once := Added(duplicated, rows, j);
    if !Refused(duplicated, rows, j) {
      assert Duplicates(once[|rows|], j);
    }
    SeenForever(duplicated, once, actions, j);
  }
}
