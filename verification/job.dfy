/** The orchestrator: `main`'s loop over the fetched rows inside one transaction, followed by
    commit, or rollback when an exception escapes, and a close on every path. */
module Job {
  import opened Wrappers
  import opened Client
  import opened Sink

  /** A row of `company_data`: `company_id` and `company_linkedin_url`. */
  datatype Row = Row(companyId: int, linkedinUrl: string)

  /** A fetched row together with what the outside world answers while it is processed: the
      reply to its API request and whether the database rejects its INSERT for a reason other
      than the primary key, with an error that fails that statement alone. */
  datatype Visit = Visit(row: Row, reply: ApiReply, writeFault: bool)

  /** One call of `insert_enriched_data`, in the order the loop makes them. */
  datatype Attempt = Attempt(companyId: int, record: Company, outcome: InsertOutcome)

  /** How the loop ends: it went through every row, leaving the uncommitted table `pending`, or
      the enrichment of row `at` raised and the exception left the loop. */
  datatype LoopResult =
    | Completed(pending: Option<Table>, attempts: seq<Attempt>)
    | Aborted(at: nat)

  /** The enrichment the loop calls for each row. `LoopTable` passes `EnrichCompanyData`; the loop and
      its properties hold for any enrichment function, so they are stated for a parameter. */
  type Enricher = ApiReply -> Enrichment

  /** `r` as the continuation of a loop that had already made the attempts `done` over
      `skipped` rows. */
  function Resume(done: seq<Attempt>, skipped: nat, r: LoopResult): LoopResult {
    match r
    case Completed(pending, attempts) => Completed(pending, done + attempts)
    case Aborted(at) => Aborted(skipped + at)
  }

  /** The `for` loop of `main`: enrich each row; skip it on no data; otherwise insert it, an
      insert error being logged and swallowed; an exception from enrichment leaves the loop. */
  function ProcessRows(enrich: Enricher, pending: Option<Table>, visits: seq<Visit>): (r: LoopResult)
    ensures r.Aborted? ==> r.at < |visits| && enrich(visits[r.at].reply) == Raises
    ensures r.Completed? ==> |r.attempts| <= |visits|
    decreases |visits|
  {
    if visits == [] then Completed(pending, [])
    else
      var v := visits[0];
      match enrich(v.reply)
      case Raises => Aborted(0)
      case NoData => Resume([], 1, ProcessRows(enrich, pending, visits[1..]))
      case Found(record) =>
        var ins := InsertEnrichedData(pending, v.row.companyId, record, v.writeFault);
        Resume([Attempt(v.row.companyId, record, ins.outcome)], 1,
               ProcessRows(enrich, Some(ins.table), visits[1..]))
  }

  /** The loop as `main` runs it, one row at a time. */
  method ProcessRowsLoop(enrich: Enricher, pending: Option<Table>, visits: seq<Visit>) returns (r: LoopResult)
    ensures r == ProcessRows(enrich, pending, visits)
  {
    var table := pending;
    var attempts: seq<Attempt> := [];
    var i := 0;
    ghost var whole := ProcessRows(enrich, pending, visits);
    assert visits[0..] == visits;
    while i < |visits|
      invariant i <= |visits|
      invariant whole == Resume(attempts, i, ProcessRows(enrich, table, visits[i..]))
    {
      var v := visits[i];
      match enrich(v.reply) {
        case Raises =>
          RaisesTurn(enrich, table, visits, i, attempts, whole);
          return Aborted(i);
        case NoData =>
          NoDataTurn(enrich, table, visits, i, attempts, whole);
        case Found(record) =>
          var ins := InsertEnrichedData(table, v.row.companyId, record, v.writeFault);
          var attempt := Attempt(v.row.companyId, record, ins.outcome);
          FoundTurn(enrich, table, visits, i, attempts, whole);
          attempts := attempts + [attempt];
          table := Some(ins.table);
      }
      i := i + 1;
    }
    assert visits[i..] == [];
    r := Completed(table, attempts);
  }

  lemma RaisesTurn(enrich: Enricher, table: Option<Table>, visits: seq<Visit>, i: nat,
                   attempts: seq<Attempt>, whole: LoopResult)
    requires i < |visits| && enrich(visits[i].reply) == Raises
    requires whole == Resume(attempts, i, ProcessRows(enrich, table, visits[i..]))
    ensures whole == Aborted(i)
  {
    assert visits[i..][0] == visits[i];
  }

  lemma NoDataTurn(enrich: Enricher, table: Option<Table>, visits: seq<Visit>, i: nat,
                   attempts: seq<Attempt>, whole: LoopResult)
    requires i < |visits| && enrich(visits[i].reply) == NoData
    requires whole == Resume(attempts, i, ProcessRows(enrich, table, visits[i..]))
    ensures whole == Resume(attempts, i + 1, ProcessRows(enrich, table, visits[i + 1..]))
  {
    assert visits[i..][0] == visits[i];
    assert visits[i..][1..] == visits[i + 1..];
    ResumeTwice(attempts, i, [], ProcessRows(enrich, table, visits[i + 1..]));
  }

  lemma FoundTurn(enrich: Enricher, table: Option<Table>, visits: seq<Visit>, i: nat,
                  attempts: seq<Attempt>, whole: LoopResult)
    requires i < |visits| && enrich(visits[i].reply).Found?
    requires whole == Resume(attempts, i, ProcessRows(enrich, table, visits[i..]))
    ensures var v := visits[i];
            var record := enrich(v.reply).record;
            var ins := InsertEnrichedData(table, v.row.companyId, record, v.writeFault);
            whole == Resume(attempts + [Attempt(v.row.companyId, record, ins.outcome)], i + 1,
                            ProcessRows(enrich, Some(ins.table), visits[i + 1..]))
  {
    var v := visits[i];
    var record := enrich(v.reply).record;
    var ins := InsertEnrichedData(table, v.row.companyId, record, v.writeFault);
    assert visits[i..][0] == v;
    assert visits[i..][1..] == visits[i + 1..];
    ResumeTwice(attempts, i, [Attempt(v.row.companyId, record, ins.outcome)],
                ProcessRows(enrich, Some(ins.table), visits[i + 1..]));
  }

  lemma ResumeTwice(done: seq<Attempt>, skipped: nat, step: seq<Attempt>, r: LoopResult)
    ensures Resume(done, skipped, Resume(step, 1, r)) == Resume(done + step, skipped + 1, r)
  {
    if r.Completed? {
      assert done + (step + r.attempts) == (done + step) + r.attempts;
    }
  }

  // ---------------------------------------------------------------------------------------
  // Properties of the loop

  /** The loop completes exactly when no row's enrichment raises; when it does not complete,
      it stopped at the first row whose enrichment raised. */
  lemma {:induction false} CompletesIffNoneRaises(enrich: Enricher, pending: Option<Table>, visits: seq<Visit>)
    ensures ProcessRows(enrich, pending, visits).Completed? <==>
            forall i :: 0 <= i < |visits| ==> enrich(visits[i].reply) != Raises
    ensures ProcessRows(enrich, pending, visits).Aborted? ==>
            var at := ProcessRows(enrich, pending, visits).at;
            && at < |visits| && enrich(visits[at].reply) == Raises
            && forall j :: 0 <= j < at ==> enrich(visits[j].reply) != Raises
    decreases |visits|
  {
    if visits != [] {
      var rest := visits[1..];
      assert forall i :: 1 <= i < |visits| ==> visits[i] == rest[i - 1];
      match enrich(visits[0].reply)
      case Raises =>
      case NoData =>
        CompletesIffNoneRaises(enrich, pending, rest);
      case Found(record) =>
        var ins := InsertEnrichedData(pending, visits[0].row.companyId, record, visits[0].writeFault);
        CompletesIffNoneRaises(enrich, Some(ins.table), rest);
    }
  }

  /** The (key, record) pairs of the rows that enrich to a record, in fetch order. */
  function Wanted(enrich: Enricher, visits: seq<Visit>): seq<(int, Company)>
    decreases |visits|
  {
    if visits == [] then []
    else
      var head := if enrich(visits[0].reply).Found? then [(visits[0].row.companyId, enrich(visits[0].reply).record)] else [];
      head + Wanted(enrich, visits[1..])
  }

  function Requests(attempts: seq<Attempt>): seq<(int, Company)> {
    seq(|attempts|, i requires 0 <= i < |attempts| => (attempts[i].companyId, attempts[i].record))
  }

  /** An insert is attempted for exactly the rows that enrich to a record, in fetch order,
      with the record the enrichment produced. */
  lemma {:induction false} AttemptsFollowFetchOrder(enrich: Enricher, pending: Option<Table>, visits: seq<Visit>)
    requires ProcessRows(enrich, pending, visits).Completed?
    ensures Requests(ProcessRows(enrich, pending, visits).attempts) == Wanted(enrich, visits)
    decreases |visits|
  {
    if visits != [] {
      var v := visits[0];
      match enrich(v.reply)
      case NoData =>
        AttemptsFollowFetchOrder(enrich, pending, visits[1..]);
      case Found(record) =>
        var ins := InsertEnrichedData(pending, v.row.companyId, record, v.writeFault);
        var rest := ProcessRows(enrich, Some(ins.table), visits[1..]);
        AttemptsFollowFetchOrder(enrich, Some(ins.table), visits[1..]);
        assert Requests([Attempt(v.row.companyId, record, ins.outcome)] + rest.attempts)
            == [(v.row.companyId, record)] + Requests(rest.attempts);
    }
  }

  /** Rows already in the table are never changed, and the table exists afterwards if it existed
      before. */
  lemma {:induction false} ExistingRowsKept(enrich: Enricher, pending: Option<Table>, visits: seq<Visit>)
    requires ProcessRows(enrich, pending, visits).Completed?
    ensures var after := ProcessRows(enrich, pending, visits).pending;
            && (pending.Some? ==> after.Some?)
            && forall k :: k in EnsureSchema(pending) ==>
                 k in EnsureSchema(after) && EnsureSchema(after)[k] == EnsureSchema(pending)[k]
    decreases |visits|
  {
    if visits != [] {
      var v := visits[0];
      match enrich(v.reply)
      case NoData =>
        ExistingRowsKept(enrich, pending, visits[1..]);
      case Found(record) =>
        var ins := InsertEnrichedData(pending, v.row.companyId, record, v.writeFault);
        ExistingRowsKept(enrich, Some(ins.table), visits[1..]);
    }
  }

  /** Row `v` is written when its key is still free: it enriches to a record and the database
      does not fault its insert. */
  predicate Storable(enrich: Enricher, v: Visit) {
    enrich(v.reply).Found? && !v.writeFault
  }

  /** Row `i` is the first storable row with `company_id` `k`. */
  predicate FirstStorable(enrich: Enricher, visits: seq<Visit>, i: int, k: int) {
    && 0 <= i < |visits| && visits[i].row.companyId == k && Storable(enrich, visits[i])
    && forall j :: 0 <= j < i && visits[j].row.companyId == k ==> !Storable(enrich, visits[j])
  }

  /** Every row the loop adds is keyed by the `company_id` of a fetched row and holds the record
      of the first storable row with that key: a later row with the same key is rejected on the
      primary key, so the first record stays. */
  lemma {:induction false} NewRowsComeFromFetchedRows(enrich: Enricher, pending: Option<Table>, visits: seq<Visit>)
    requires ProcessRows(enrich, pending, visits).Completed?
    ensures var after := EnsureSchema(ProcessRows(enrich, pending, visits).pending);
            forall k :: k in after && k !in EnsureSchema(pending) ==>
              exists i :: FirstStorable(enrich, visits, i, k) && enrich(visits[i].reply) == Found(after[k])
    decreases |visits|
  {
    if visits != [] {
      var v := visits[0];
      var rest := visits[1..];
      assert forall i :: 0 <= i < |rest| ==> rest[i] == visits[i + 1];
      var after := EnsureSchema(ProcessRows(enrich, pending, visits).pending);
      match enrich(v.reply)
      case NoData =>
        NewRowsComeFromFetchedRows(enrich, pending, rest);
        forall k | k in after && k !in EnsureSchema(pending)
          ensures exists i :: FirstStorable(enrich, visits, i, k) && enrich(visits[i].reply) == Found(after[k])
        {
          var i :| FirstStorable(enrich, rest, i, k) && enrich(rest[i].reply) == Found(after[k]);
          assert FirstStorable(enrich, visits, i + 1, k);
        }
      case Found(record) =>
        var ins := InsertEnrichedData(pending, v.row.companyId, record, v.writeFault);
        NewRowsComeFromFetchedRows(enrich, Some(ins.table), rest);
        ExistingRowsKept(enrich, Some(ins.table), rest);
        forall k | k in after && k !in EnsureSchema(pending)
          ensures exists i :: FirstStorable(enrich, visits, i, k) && enrich(visits[i].reply) == Found(after[k])
        {
          if k in ins.table {
            assert FirstStorable(enrich, visits, 0, k);
          } else {
            var i :| FirstStorable(enrich, rest, i, k) && enrich(rest[i].reply) == Found(after[k]);
            assert FirstStorable(enrich, visits, i + 1, k);
          }
        }
    }
  }

  /** Every row that enriches to a record and whose insert the database does not fault ends up
      with its key in the table: inserted, or already there. */
  lemma {:induction false} FoundRowsStored(enrich: Enricher, pending: Option<Table>, visits: seq<Visit>)
    requires ProcessRows(enrich, pending, visits).Completed?
    ensures var after := EnsureSchema(ProcessRows(enrich, pending, visits).pending);
            forall i :: 0 <= i < |visits| && enrich(visits[i].reply).Found? && !visits[i].writeFault ==>
              visits[i].row.companyId in after
    decreases |visits|
  {
    if visits != [] {
      var v := visits[0];
      var rest := visits[1..];
      assert forall i :: 1 <= i < |visits| ==> visits[i] == rest[i - 1];
      match enrich(v.reply)
      case NoData =>
        FoundRowsStored(enrich, pending, rest);
      case Found(record) =>
        var ins := InsertEnrichedData(pending, v.row.companyId, record, v.writeFault);
        FoundRowsStored(enrich, Some(ins.table), rest);
        ExistingRowsKept(enrich, Some(ins.table), rest);
    }
  }

  /** Rows that all enrich to no data leave the database exactly as it was: no row is written
      and the table is not even created. */
  lemma {:induction false} NoRecordNoWrite(enrich: Enricher, pending: Option<Table>, visits: seq<Visit>)
    requires forall i :: 0 <= i < |visits| ==> enrich(visits[i].reply) == NoData
    ensures ProcessRows(enrich, pending, visits) == Completed(pending, [])
    decreases |visits|
  {
    if visits != [] {
      NoRecordNoWrite(enrich, pending, visits[1..]);
    }
  }

  /** An enrichment function that only ever returns records with some non-empty attribute. */
  ghost predicate KeepsOnlyData(enrich: Enricher) {
    forall reply :: enrich(reply).Found? ==> enrich(reply).record.HasData()
  }

  /** Every stored row has at least one non-empty attribute, if that held before the loop. */
  lemma StoredRowsHaveData(enrich: Enricher, pending: Option<Table>, visits: seq<Visit>)
    requires KeepsOnlyData(enrich)
    requires ProcessRows(enrich, pending, visits).Completed?
    requires forall k :: k in EnsureSchema(pending) ==> EnsureSchema(pending)[k].HasData()
    ensures var after := EnsureSchema(ProcessRows(enrich, pending, visits).pending);
            forall k :: k in after ==> after[k].HasData()
  {
    var after := EnsureSchema(ProcessRows(enrich, pending, visits).pending);
    NewRowsComeFromFetchedRows(enrich, pending, visits);
    ExistingRowsKept(enrich, pending, visits);
    forall k | k in after ensures after[k].HasData() {
      if k !in EnsureSchema(pending) {
        var i :| FirstStorable(enrich, visits, i, k) && enrich(visits[i].reply) == Found(after[k]);
        assert enrich(visits[i].reply).record.HasData();
      }
    }
  }

  /** The client's enrichment never returns a record without data. */
  lemma ClientKeepsOnlyData()
    ensures KeepsOnlyData(EnrichCompanyData)
  {
    forall reply | EnrichCompanyData(reply).Found?
      ensures EnrichCompanyData(reply).record.HasData()
    {
      assert reply.Body?;
    }
  }

  // ---------------------------------------------------------------------------------------
  // The whole run: connect, fetch, loop, commit or roll back, close

  /** How `main` ends: `create_connection` raised (nothing opened, nothing to close), the
      transaction was committed, or an exception reached the handler and it was rolled back. */
  datatype Exit = ConnectFailed | Committed | RolledBack

  /** The database as the job sees it: the table inside the open transaction, the table as last
      committed (`None`: the table does not exist), and whether the connection is open. */
  datatype Db = Db(pending: Option<Table>, committed: Option<Table>, open: bool)

  /** What the outside world does during one run: whether connecting succeeds, the rows the
      SELECT returns with the replies they will get (`None`: the query raised), and whether the
      commit succeeds. */
  datatype Environment = Environment(connects: bool, fetched: Option<seq<Visit>>, commitSucceeds: bool)

  datatype RunResult = RunResult(db: Db, exit: Exit)

  function Commit(db: Db): Db {
    db.(committed := db.pending)
  }

  function Rollback(db: Db): Db {
    db.(pending := db.committed)
  }

  function Close(db: Db): Db {
    db.(open := false)
  }

  /** A commit is durable: a rollback after it restores what was just committed, so changes
      nothing; and closing keeps both tables. */
  lemma CommitIsDurable(db: Db)
    ensures Rollback(Commit(db)) == Commit(db)
    ensures Close(Commit(db)).committed == db.pending
  {
  }

  /** A rollback discards the transaction: committing right after it publishes the table as
      last committed, so the committed table does not change. */
  lemma RollbackDiscards(db: Db)
    ensures Commit(Rollback(db)).committed == db.committed
    ensures Rollback(db).pending == Rollback(db).committed
  {
  }

  /** The table the loop leaves inside the transaction, or `None` when an exception escaped
      before the commit (the SELECT raised, or an enrichment raised). */
  function LoopTable(table: Option<Table>, fetched: Option<seq<Visit>>): Option<Option<Table>> {
    match fetched
    case None => None
    case Some(visits) =>
      match ProcessRows(EnrichCompanyData, table, visits)
      case Aborted(_) => None
      case Completed(pending, _) => Some(pending)
  }

  /** `main`, starting from a database whose committed table is `table`. */
  function RunJob(table: Option<Table>, env: Environment): (r: RunResult)
    ensures !r.db.open
    ensures r.exit.Committed? ==> r.db.committed == r.db.pending
    ensures !r.exit.Committed? ==> r.db.committed == table && r.db.pending == table
  {
    if !env.connects then RunResult(Db(table, table, false), ConnectFailed)
    else
      var db := Db(table, table, true);
      match LoopTable(table, env.fetched)
      case Some(pending) =>
        if env.commitSucceeds then RunResult(Close(Commit(db.(pending := pending))), Committed)
        else RunResult(Close(Rollback(db.(pending := pending))), RolledBack)
      case None => RunResult(Close(Rollback(db)), RolledBack)
  }

  /** The run commits exactly when it connects, the SELECT succeeds, no enrichment raises and
      the commit succeeds; insert errors and rows without data never prevent the commit. */
  lemma CommitsIff(table: Option<Table>, env: Environment)
    ensures RunJob(table, env).exit == Committed <==>
            && env.connects && env.fetched.Some? && env.commitSucceeds
            && forall i :: 0 <= i < |env.fetched.value| ==> EnrichCompanyData(env.fetched.value[i].reply) != Raises
  {
    if env.fetched.Some? {
      CompletesIffNoneRaises(EnrichCompanyData, table, env.fetched.value);
    }
  }

  /** What a committed run leaves in the committed table: every row that was there before,
      unchanged; a row for every fetched row that enriched to a record and was not faulted;
      and nothing else but rows holding the record of the first storable fetched row with
      their key, each with some non-empty attribute if that held of the rows before. */
  lemma CommittedTable(table: Option<Table>, env: Environment)
    requires RunJob(table, env).exit == Committed
    ensures var before := EnsureSchema(table);
            var after := EnsureSchema(RunJob(table, env).db.committed);
            var visits := env.fetched.value;
            && (forall k :: k in before ==> k in after && after[k] == before[k])
            && (forall i :: 0 <= i < |visits| && EnrichCompanyData(visits[i].reply).Found? && !visits[i].writeFault ==>
                  visits[i].row.companyId in after)
            && (forall k :: k in after && k !in before ==>
                  exists i :: FirstStorable(EnrichCompanyData, visits, i, k)
                           && EnrichCompanyData(visits[i].reply) == Found(after[k]))
            && ((forall k :: k in before ==> before[k].HasData()) ==> forall k :: k in after ==> after[k].HasData())
  {
    var visits := env.fetched.value;
    ExistingRowsKept(EnrichCompanyData, table, visits);
    FoundRowsStored(EnrichCompanyData, table, visits);
    NewRowsComeFromFetchedRows(EnrichCompanyData, table, visits);
    if forall k :: k in EnsureSchema(table) ==> EnsureSchema(table)[k].HasData() {
      ClientKeepsOnlyData();
      StoredRowsHaveData(EnrichCompanyData, table, visits);
    }
  }

  /** Two rows, the first of whose API calls fails in transport: the run still commits, the
      first row is skipped and the second is written. */
  lemma TransportFailureThenSuccess(table: Option<Table>, env: Environment, first: Row, second: Visit, record: Company)
    requires env.connects && env.commitSucceeds
    requires env.fetched == Some([Visit(first, TransportError, false), second])
    requires EnrichCompanyData(second.reply) == Found(record)
    requires second.row.companyId !in EnsureSchema(table) && !second.writeFault
    ensures RunJob(table, env).exit == Committed
    ensures RunJob(table, env).db.committed == Some(EnsureSchema(table)[second.row.companyId := record])
  {
    var visits := env.fetched.value;
    var id := second.row.companyId;
    var written := EnsureSchema(table)[id := record];
    assert EnrichCompanyData(TransportError) == NoData;
    assert visits[1..] == [second];
    assert [second][1..] == [];
    var ins := InsertEnrichedData(table, id, record, false);
    assert ins.table == written;
    assert ProcessRows(EnrichCompanyData, Some(written), []) == Completed(Some(written), []);
    assert ProcessRows(EnrichCompanyData, table, [second]).pending == Some(written);
    assert ProcessRows(EnrichCompanyData, table, visits).pending == Some(written);
  }

  /** Three rows whose second repeats the first one's `company_id`: the duplicate insert is
      logged and swallowed, and the run commits with the first row's record in place. */
  lemma DuplicateKeyDoesNotRollBack(table: Option<Table>, env: Environment, visits: seq<Visit>,
                                    r0: Company, r1: Company, r2: Company)
    requires env.connects && env.commitSucceeds && env.fetched == Some(visits)
    requires |visits| == 3
    requires EnrichCompanyData(visits[0].reply) == Found(r0)
    requires EnrichCompanyData(visits[1].reply) == Found(r1)
    requires EnrichCompanyData(visits[2].reply) == Found(r2)
    requires visits[1].row.companyId == visits[0].row.companyId
    requires visits[0].row.companyId !in EnsureSchema(table) && !visits[0].writeFault
    ensures RunJob(table, env).exit == Committed
    ensures var after := EnsureSchema(RunJob(table, env).db.committed);
            visits[0].row.companyId in after && after[visits[0].row.companyId] == r0
  {
    CommitsIff(table, env);
    var id := visits[0].row.companyId;
    var ins := InsertEnrichedData(table, id, r0, false);
    assert ins.table == EnsureSchema(table)[id := r0];
    var rest := ProcessRows(EnrichCompanyData, Some(ins.table), visits[1..]);
    assert ProcessRows(EnrichCompanyData, table, visits) == Resume([Attempt(id, r0, Inserted)], 1, rest);
    CompletesIffNoneRaises(EnrichCompanyData, Some(ins.table), visits[1..]);
    ExistingRowsKept(EnrichCompanyData, Some(ins.table), visits[1..]);
  }
}
