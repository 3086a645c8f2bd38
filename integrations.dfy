/** Connections to outside systems and their activity log: testing a
    connection (whose outcome the service draws at random, here an input),
    changing a status, writing a log entry, and the listings and counters of
    the integrations screen. */
module Integrations {
  import opened Common
  import opened Calendar
  import opened Seqs
  import opened Schema
  import opened Text

  const ActiveStatus: string := "active"
  const ErrorStatus: string := "error"
  const TestAction: string := "test"
  const ConnectionTimeout: string := "Connection timeout"

  // ---------------------------------------------------------------------------
  // Writes

  /** Writes the two integration tables and the id counter. */
  method StoreIntegrations(db: Db, xs: seq<Integration>, logs: seq<IntegrationLog>, next: nat)
    modifies db`integrations, db`integrationLogs, db`nextId
    ensures db.Snapshot() == old(db.Snapshot()).(integrations := xs, integrationLogs := logs, nextId := next)
  {
    db.integrations, db.integrationLogs, db.nextId := xs, logs, next;
  }

  /** The entry a connection test leaves in the log. */
  function TestLog(integrationId: Id, success: bool, id: Id, now: Instant): (l: IntegrationLog)
    ensures l.id == id && l.integrationId == integrationId && l.action == TestAction
    ensures l.status == (if success then "success" else "error")
    ensures l.recordsAffected == Some(if success then 1 else 0)
  {
    IntegrationLog(id, integrationId, TestAction, if success then "success" else "error",
                   if success then "Conexión exitosa" else "Error de conexión",
                   Some(if success then 1 else 0), None, now)
  }

  /** The integration after a test: active, synchronised now and without an
      error when it succeeded; in error with a timeout, and the last
      synchronisation kept, when it failed. */
  function TestOutcome(x: Integration, success: bool, now: Instant): (y: Integration)
    ensures y.id == x.id && y.name == x.name && y.kind == x.kind
    ensures y.status == ActiveStatus <==> success
    ensures success ==> y.lastSync == Some(now) && y.lastError == None
    ensures !success ==> y.status == ErrorStatus && y.lastSync == x.lastSync && y.lastError == Some(ConnectionTimeout)
  {
    if success then x.(status := ActiveStatus, lastSync := Some(now), lastError := None)
    else x.(status := ErrorStatus, lastError := Some(ConnectionTimeout))
  }

  /** The tables after testing the integration at row `i`. */
  function AfterTest(t: Tables, i: nat, success: bool, now: Instant): Tables
    requires i < |t.integrations|
  {
    t.(integrations := t.integrations[i := TestOutcome(t.integrations[i], success, now)],
       integrationLogs := t.integrationLogs + [TestLog(t.integrations[i].id, success, t.nextId, now)],
       nextId := t.nextId + 1)
  }

  /** `testIntegration`: logs the test, then records its outcome on the
      integration, and returns the outcome. Logging for an unknown id violates
      the log's reference to its integration, and nothing changes. */
  method TestIntegration(db: Db, integrationId: Id, success: bool, now: Instant) returns (r: Result<bool>)
    requires db.Valid()
    modifies db`integrations, db`integrationLogs, db`nextId
    ensures db.Valid()
    ensures match Find(old(db.integrations), IntegrationKey, integrationId)
      case None => r == Err(ForeignKeyViolation) && db.Snapshot() == old(db.Snapshot())
      case Some(i) => r == Ok(success) && db.Snapshot() == AfterTest(old(db.Snapshot()), i, success, now)
  {
    var found := Find(db.integrations, IntegrationKey, integrationId);
    if found.None? {
      return Err(ForeignKeyViolation);
    }
    var i := found.value;
    ghost var t0 := db.Snapshot();
    var log := TestLog(integrationId, success, db.nextId, now);
    var x := TestOutcome(db.integrations[i], success, now);
    StoreIntegrations(db, db.integrations[i := x], db.integrationLogs + [log], db.nextId + 1);
    AfterTestValid(t0, i, success, now);
    r := Ok(success);
  }

  /** A test keeps the database valid. */
  lemma AfterTestValid(t: Tables, i: nat, success: bool, now: Instant)
    requires TablesValid(t) && i < |t.integrations|
    ensures TablesValid(AfterTest(t, i, success, now))
  {
    var t' := AfterTest(t, i, success, now);
    KeysUpdate(t.integrations, IntegrationKey, i, TestOutcome(t.integrations[i], success, now));
    IssuedAppendRow(t.integrationLogs, IntegrationLogKey, t'.integrationLogs[|t.integrationLogs|], t.nextId, t.nextId + 1);
    IdsIssuedGrow(t, t.nextId + 1);
    assert IdsIssued(t');
    assert References(t') by {
      assert t.integrations[i].id in Map(t.integrations, IntegrationKey);
    }
  }

  /** `updateIntegrationStatus`: sets the status of the integration with the
      id, or fails when there is none. */
  method UpdateIntegrationStatus(db: Db, integrationId: Id, status: string) returns (r: Result<Integration>)
    requires db.Valid()
    modifies db`integrations, db`integrationLogs, db`nextId
    ensures db.Valid()
    ensures match Find(old(db.integrations), IntegrationKey, integrationId)
      case None => r == Err(RecordNotFound) && db.Snapshot() == old(db.Snapshot())
      case Some(i) =>
        && r == Ok(old(db.integrations)[i].(status := status))
        && db.Snapshot() == old(db.Snapshot()).(integrations := old(db.integrations)[i := old(db.integrations)[i].(status := status)])
  {
    var found := Find(db.integrations, IntegrationKey, integrationId);
    if found.None? {
      return Err(RecordNotFound);
    }
    var i := found.value;
    var x := db.integrations[i].(status := status);
    KeysUpdate(db.integrations, IntegrationKey, i, x);
    StoreIntegrations(db, db.integrations[i := x], db.integrationLogs, db.nextId);
    r := Ok(x);
  }

  /** What the caller supplies to write a log entry. */
  datatype LogData = LogData(
    integrationId: Id, action: string, status: string, message: string,
    recordsAffected: Option<int>, details: Option<string>)

  function NewLog(data: LogData, id: Id, now: Instant): (l: IntegrationLog)
    ensures l.id == id && l.integrationId == data.integrationId && l.createdAt == now
  {
    IntegrationLog(id, data.integrationId, data.action, data.status, data.message,
                   data.recordsAffected, data.details, now)
  }

  /** `createIntegrationLog`: appends the entry, which must name a stored
      integration. */
  method CreateIntegrationLog(db: Db, data: LogData, now: Instant) returns (r: Result<IntegrationLog>)
    requires db.Valid()
    modifies db`integrations, db`integrationLogs, db`nextId
    ensures db.Valid()
    ensures data.integrationId !in Map(old(db.integrations), IntegrationKey) ==>
      r == Err(ForeignKeyViolation) && db.Snapshot() == old(db.Snapshot())
    ensures data.integrationId in Map(old(db.integrations), IntegrationKey) ==>
      && r == Ok(NewLog(data, old(db.nextId), now))
      && db.Snapshot() == old(db.Snapshot()).(integrationLogs := old(db.integrationLogs) + [r.value], nextId := old(db.nextId) + 1)
  {
    if data.integrationId !in Map(db.integrations, IntegrationKey) {
      return Err(ForeignKeyViolation);
    }
    ghost var t0 := db.Snapshot();
    var l := NewLog(data, db.nextId, now);
    StoreIntegrations(db, db.integrations, db.integrationLogs + [l], db.nextId + 1);
    IssuedAppendRow(t0.integrationLogs, IntegrationLogKey, l, t0.nextId, t0.nextId + 1);
    IdsIssuedGrow(t0, t0.nextId + 1);
    r := Ok(l);
  }

  // ---------------------------------------------------------------------------
  // Reads

  predicate LogNewestFirst(a: IntegrationLog, b: IntegrationLog) { a.createdAt >= b.createdAt }

  predicate ByName(a: Integration, b: Integration) { LexLeq(a.name, b.name) }

  lemma ByNameOrders()
    ensures TotalPreorder(ByName)
  {
    forall a: Integration, b: Integration ensures ByName(a, b) || ByName(b, a) {
      LexLeqTotal(a.name, b.name);
    }
    forall a: Integration, b: Integration, c: Integration | ByName(a, b) && ByName(b, c) ensures ByName(a, c) {
      LexLeqTransitive(a.name, b.name, c.name);
    }
  }

  /** The entries of one integration. */
  function OfIntegration(id: Id): IntegrationLog -> bool
  {
    (l: IntegrationLog) => l.integrationId == id
  }

  /** An integration as listed: with its five newest entries and the number
      of all its entries. */
  datatype IntegrationView = IntegrationView(integration: Integration, logs: seq<IntegrationLog>, logCount: nat)

  const ListedLogs: nat := 5

  function ViewOf(t: Tables, x: Integration): (v: IntegrationView)
    ensures v.integration == x
    ensures v.logCount == Count(t.integrationLogs, OfIntegration(x.id))
    ensures |v.logs| == if v.logCount < ListedLogs then v.logCount else ListedLogs
    ensures forall l :: l in v.logs ==> l in t.integrationLogs && l.integrationId == x.id
    ensures multiset(v.logs) <= multiset(Filter(t.integrationLogs, OfIntegration(x.id)))
    ensures SortedBy(v.logs, LogNewestFirst)
    ensures forall l, m :: l in t.integrationLogs && l.integrationId == x.id && l !in v.logs && m in v.logs
              ==> l.createdAt <= m.createdAt
  {
    assert TotalPreorder(LogNewestFirst);
    var logs := Top(t.integrationLogs, OfIntegration(x.id), LogNewestFirst, ListedLogs);
    IntegrationView(x, logs, Count(t.integrationLogs, OfIntegration(x.id)))
  }

  /** The optional filters of the listing; empty strings count as absent. */
  datatype IntegrationFilters = IntegrationFilters(status: Option<string>, kind: Option<string>)

  predicate IntegrationMatches(f: IntegrationFilters, x: Integration)
  {
    (Given(f.status) ==> x.status == f.status.value) && (Given(f.kind) ==> x.kind == f.kind.value)
  }

  function IntegrationMatchesIn(f: IntegrationFilters): Integration -> bool
  {
    (x: Integration) => IntegrationMatches(f, x)
  }

  /** `getIntegrations`: the matching integrations in name order, each with
      its newest entries and its entry count. */
  function GetIntegrations(t: Tables, f: IntegrationFilters): (r: seq<IntegrationView>)
    ensures |r| == Count(t.integrations, IntegrationMatchesIn(f))
    ensures forall x :: (exists v :: v in r && v.integration == x) <==> x in t.integrations && IntegrationMatches(f, x)
    ensures forall i, j :: 0 <= i < j < |r| ==> LexLeq(r[i].integration.name, r[j].integration.name)
    ensures forall v :: v in r ==> v == ViewOf(t, v.integration)
    ensures forall v :: v in r ==> multiset(v.logs) <= multiset(Filter(t.integrationLogs, OfIntegration(v.integration.id)))
  {
    ByNameOrders();
    var xs := Select(t.integrations, IntegrationMatchesIn(f), ByName);
    assert |xs| == |Filter(t.integrations, IntegrationMatchesIn(f))| by {
      assert |multiset(xs)| == |multiset(Filter(t.integrations, IntegrationMatchesIn(f)))|;
    }
    ViewsCover(t, f, xs);
    ViewsStored(t, xs);
    ViewsOf(t, xs)
  }

  /** The view of each integration of a list, in order. */
  function ViewsOf(t: Tables, xs: seq<Integration>): (r: seq<IntegrationView>)
    ensures |r| == |xs|
    ensures forall i :: 0 <= i < |xs| ==> r[i] == ViewOf(t, xs[i])
  {
    seq(|xs|, i requires 0 <= i < |xs| => ViewOf(t, xs[i]))
  }

  /** The views of the matching integrations show exactly the matching
      integrations, in the list's order. */
  lemma ViewsCover(t: Tables, f: IntegrationFilters, xs: seq<Integration>)
    requires forall x :: x in xs <==> x in t.integrations && IntegrationMatches(f, x)
    requires SortedBy(xs, ByName)
    ensures forall x :: (exists v :: v in ViewsOf(t, xs) && v.integration == x) <==> x in t.integrations && IntegrationMatches(f, x)
    ensures forall i, j :: 0 <= i < j < |xs| ==> LexLeq(ViewsOf(t, xs)[i].integration.name, ViewsOf(t, xs)[j].integration.name)
  {
    var r := ViewsOf(t, xs);
    forall x ensures (exists v :: v in r && v.integration == x) <==> x in t.integrations && IntegrationMatches(f, x) {
      if x in xs {
        var i :| 0 <= i < |xs| && xs[i] == x;
        assert r[i] in r;
      }
    }
    forall i, j | 0 <= i < j < |xs| ensures LexLeq(r[i].integration.name, r[j].integration.name) {
      assert ByName(xs[i], xs[j]);
    }
  }

  /** Every listed view is its integration's view, whose entries are distinct
      stored entries of that integration. */
  lemma ViewsStored(t: Tables, xs: seq<Integration>)
    ensures forall v :: v in ViewsOf(t, xs) ==> v == ViewOf(t, v.integration)
    ensures forall v :: v in ViewsOf(t, xs) ==> multiset(v.logs) <= multiset(Filter(t.integrationLogs, OfIntegration(v.integration.id)))
  {
    forall v | v in ViewsOf(t, xs) ensures v == ViewOf(t, v.integration) {
      var i :| 0 <= i < |xs| && ViewsOf(t, xs)[i] == v;
    }
    forall v | v in ViewsOf(t, xs)
      ensures multiset(v.logs) <= multiset(Filter(t.integrationLogs, OfIntegration(v.integration.id)))
    {
      ViewLogsStored(t, v);
    }
  }

  /** A listed view's entries are distinct stored entries of its integration. */
  lemma ViewLogsStored(t: Tables, v: IntegrationView)
    requires v == ViewOf(t, v.integration)
    ensures multiset(v.logs) <= multiset(Filter(t.integrationLogs, OfIntegration(v.integration.id)))
  {
  }

  /** `getIntegrationById`: the integration with all its entries, newest first. */
  function GetIntegrationById(t: Tables, id: Id): (r: Option<IntegrationView>)
    ensures r.None? <==> id !in Map(t.integrations, IntegrationKey)
    ensures r.Some? ==> r.value.integration in t.integrations && r.value.integration.id == id
    ensures r.Some? ==> |r.value.logs| == r.value.logCount == Count(t.integrationLogs, OfIntegration(id))
    ensures r.Some? ==> forall l :: l in r.value.logs <==> l in t.integrationLogs && l.integrationId == id
    ensures r.Some? ==> SortedBy(r.value.logs, LogNewestFirst)
  {
    match Lookup(t.integrations, IntegrationKey, id)
    case None => None
    case Some(x) =>
      assert TotalPreorder(LogNewestFirst);
      var logs := Select(t.integrationLogs, OfIntegration(id), LogNewestFirst);
      assert |logs| == |Filter(t.integrationLogs, OfIntegration(id))| by {
        assert |multiset(logs)| == |multiset(Filter(t.integrationLogs, OfIntegration(id)))|;
      }
      Some(IntegrationView(x, logs, |logs|))
  }

  /** The optional filters of an integration's log. */
  datatype LogFilters = LogFilters(
    status: Option<string>, action: Option<string>, startDate: Option<Instant>, endDate: Option<Instant>)

  predicate LogMatches(id: Id, f: LogFilters, l: IntegrationLog)
  {
    && l.integrationId == id
    && (Given(f.status) ==> l.status == f.status.value)
    && (Given(f.action) ==> l.action == f.action.value)
    && InRange(l.createdAt, f.startDate, f.endDate)
  }

  function LogMatchesIn(id: Id, f: LogFilters): IntegrationLog -> bool
  {
    (l: IntegrationLog) => LogMatches(id, f, l)
  }

  /** `getIntegrationLogs`: exactly the integration's entries that match the
      filters, each as often as stored, newest first. */
  function GetIntegrationLogs(t: Tables, id: Id, f: LogFilters): (r: seq<IntegrationLog>)
    ensures forall l :: l in r <==> l in t.integrationLogs && LogMatches(id, f, l)
    ensures multiset(r) == multiset(Filter(t.integrationLogs, LogMatchesIn(id, f)))
    ensures forall i, j :: 0 <= i < j < |r| ==> r[i].createdAt >= r[j].createdAt
  {
    assert TotalPreorder(LogNewestFirst);
    Select(t.integrationLogs, LogMatchesIn(id, f), LogNewestFirst)
  }

  // ---------------------------------------------------------------------------
  // Statistics

  datatype IntegrationStats = IntegrationStats(
    total: nat, active: nat, error: nat, inactive: int, recentLogs: seq<IntegrationLog>)

  const RecentLogs: nat := 10

  function HasStatus(status: string): Integration -> bool
  {
    (x: Integration) => x.status == status
  }

  /** Neither active nor in error. */
  function Idle(): Integration -> bool
  {
    (x: Integration) => x.status != ActiveStatus && x.status != ErrorStatus
  }

  function AnyLog(): IntegrationLog -> bool
  {
    (l: IntegrationLog) => true
  }

  /** `getIntegrationStats`: how many integrations there are, are active and
      are in error; the rest counted as inactive; and the ten newest entries. */
  function GetIntegrationStats(t: Tables): (r: IntegrationStats)
    ensures r.total == |t.integrations|
    ensures r.active == Count(t.integrations, HasStatus(ActiveStatus))
    ensures r.error == Count(t.integrations, HasStatus(ErrorStatus))
    ensures r.inactive == Count(t.integrations, Idle())
    ensures |r.recentLogs| == if |t.integrationLogs| < RecentLogs then |t.integrationLogs| else RecentLogs
    ensures forall l :: l in r.recentLogs ==> l in t.integrationLogs
    ensures multiset(r.recentLogs) <= multiset(t.integrationLogs)
    ensures SortedBy(r.recentLogs, LogNewestFirst)
    ensures forall l, m :: l in t.integrationLogs && l !in r.recentLogs && m in r.recentLogs ==> l.createdAt <= m.createdAt
  {
    StatusesPartition(t.integrations);
    CountEvery(t.integrationLogs, AnyLog());
    FilterAll(t.integrationLogs, AnyLog());
    assert TotalPreorder(LogNewestFirst);
    var total := |t.integrations|;
    var active := Count(t.integrations, HasStatus(ActiveStatus));
    var error := Count(t.integrations, HasStatus(ErrorStatus));
    IntegrationStats(total, active, error, total - active - error,
                     Top(t.integrationLogs, AnyLog(), LogNewestFirst, RecentLogs))
  }

  /** Every integration is active, in error or idle, and only one of them. */
  lemma {:induction false} StatusesPartition(xs: seq<Integration>)
    ensures |xs| == Count(xs, HasStatus(ActiveStatus)) + Count(xs, HasStatus(ErrorStatus)) + Count(xs, Idle())
  {
    if xs != [] {
      StatusesPartition(xs[1..]);
    }
  }

  /** A test takes the integration under test out of the idle ones and leaves the
      others where they were: the idle count drops by one if it was idle, and
      the active count ends up counting it exactly when the test succeeded. */
  lemma TestCounts(t: Tables, i: nat, success: bool, now: Instant)
    requires i < |t.integrations|
    ensures var before := GetIntegrationStats(t);
      var after := GetIntegrationStats(AfterTest(t, i, success, now));
      && after.total == before.total
      && after.inactive == before.inactive - (if Idle()(t.integrations[i]) then 1 else 0)
      && after.active == before.active - (if t.integrations[i].status == ActiveStatus then 1 else 0) + (if success then 1 else 0)
      && |after.recentLogs| >= |before.recentLogs|
  {
    var x := TestOutcome(t.integrations[i], success, now);
    CountUpdate(t.integrations, i, x, Idle());
    CountUpdate(t.integrations, i, x, HasStatus(ActiveStatus));
  }
}
