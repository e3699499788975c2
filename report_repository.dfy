/** The stored monthly reports (ReportDocument.ts, CosmosReportRepository.ts):
    an in-memory stand-in for the Reports container, holding the report
    documents in query order and the single global `report-counter`
    document with its entity tag, and the repository over it that numbers
    each new period's report from that counter. */
module ReportRepository {
  import opened Results
  import opened Decimal
  import MonthlyReports

  datatype ReportStatus = PENDING | SENDING | SUCCESS | FAILURE

  /** An instant in milliseconds; the clock is an input. */
  type Time = int

  /** `ReportDocument`; the optional fields are `Option`s. */
  datatype ReportDocument = ReportDocument(
    id: string, year: int, month: int, identifier: nat, status: ReportStatus,
    retryCount: nat, lastRetryDate: Option<Time>, createdAt: Time, updatedAt: Time,
    report: MonthlyReports.MonthlyReport, error: Option<string>)

  /** `ReportCounter`, with the container's entity tag. */
  datatype ReportCounter = ReportCounter(id: string, currentValue: nat, etag: nat)

  const CounterId := "report-counter"

  datatype RepositoryError = BatchOperationFailed | CounterNotFoundAfterConflict | ReportNotFound(id: string)

  function Message(e: RepositoryError): string {
    match e
    case BatchOperationFailed => "Batch operation failed"
    case CounterNotFoundAfterConflict => "Counter still not found after conflict"
    case ReportNotFound(id) => "Report " + id + " not found"
  }

  /** What another writer does to the counter while `getOrCreateCounter`
      finds none: nothing; creates it first (our create conflicts); or creates
      it and deletes it again before we re-read. */
  datatype CounterRace = NoRace | RivalCreates | RivalCreatesThenRemoves

  predicate InPeriod(d: ReportDocument, year: int, month: int) {
    d.year == year && d.month == month
  }

  /** Where the first report of a period is, `|reports|` when there is none. */
  function PeriodIndex(reports: seq<ReportDocument>, year: int, month: int): (i: nat)
    ensures i <= |reports|
    ensures i < |reports| ==> InPeriod(reports[i], year, month)
    ensures forall j :: 0 <= j < i ==> !InPeriod(reports[j], year, month)
  {
    if reports == [] then 0
    else if InPeriod(reports[0], year, month) then 0
    else 1 + PeriodIndex(reports[1..], year, month)
  }

  /** The first report of a period, the answer of the period query. */
  function FirstInPeriod(reports: seq<ReportDocument>, year: int, month: int): (r: Option<ReportDocument>)
    ensures r.Some? ==> r.value in reports && InPeriod(r.value, year, month)
    ensures r.None? <==> forall d :: d in reports ==> !InPeriod(d, year, month)
  {
    var i := PeriodIndex(reports, year, month);
    if i < |reports| then Some(reports[i]) else None
  }

  /** Where the document with id `id` is, `|reports|` when there is none. */
  function IdIndex(reports: seq<ReportDocument>, id: string): (i: nat)
    ensures i <= |reports|
    ensures i < |reports| ==> reports[i].id == id
    ensures forall j :: 0 <= j < i ==> reports[j].id != id
  {
    if reports == [] then 0
    else if reports[0].id == id then 0
    else 1 + IdIndex(reports[1..], id)
  }

  /** The reports with a given status, in query order. */
  function WithStatus(reports: seq<ReportDocument>, status: ReportStatus): (ws: seq<ReportDocument>)
    ensures forall i :: 0 <= i < |ws| ==> ws[i].status == status
    ensures forall d :: d in ws <==> d in reports && d.status == status
  {
    if reports == [] then []
    else
      var last := reports[|reports| - 1];
      WithStatus(reports[..|reports| - 1], status) + (if last.status == status then [last] else [])
  }

  ghost predicate UniqueIds(reports: seq<ReportDocument>) {
    forall i, j :: 0 <= i < j < |reports| ==> reports[i].id != reports[j].id
  }

  /** `upsert`: replaces the document with the same id, or appends. */
  function Upsert(reports: seq<ReportDocument>, d: ReportDocument): (rs: seq<ReportDocument>)
    ensures |rs| == |reports| || rs == reports + [d]
    ensures IdIndex(reports, d.id) < |reports| ==> rs == reports[IdIndex(reports, d.id) := d]
    ensures d in rs
  {
    var i := IdIndex(reports, d.id);
    if i < |reports| then
      var rs := reports[i := d];
      assert rs[i] == d;
      rs
    else
      reports + [d]
  }

  /** An upsert keeps every document with another id. */
  lemma UpsertKeeps(reports: seq<ReportDocument>, d: ReportDocument, e: ReportDocument)
    requires e in reports && e.id != d.id
    ensures e in Upsert(reports, d)
  {
    var j :| 0 <= j < |reports| && reports[j] == e;
    var rs := Upsert(reports, d);
    assert rs[j] == e;
  }

  lemma UpsertUnique(reports: seq<ReportDocument>, d: ReportDocument)
    requires UniqueIds(reports)
    ensures UniqueIds(Upsert(reports, d))
  {
  }

  /** After a period's first report is upserted, the period query finds it. */
  lemma UpsertFound(reports: seq<ReportDocument>, d: ReportDocument)
    requires FirstInPeriod(reports, d.year, d.month).None?
    ensures FirstInPeriod(Upsert(reports, d), d.year, d.month) == Some(d)
  {
    var i, rs := IdIndex(reports, d.id), Upsert(reports, d);
    assert forall j :: 0 <= j < |reports| ==> !InPeriod(reports[j], d.year, d.month);
    assert forall j :: 0 <= j < |rs| && rs[j] != d ==> !InPeriod(rs[j], d.year, d.month);
    var k := if i < |reports| then i else |reports|;
    assert rs[k] == d;
  }

  /** The document `saveWithCounter` stores for a new period: numbered `n`,
      in the document and as the header's `Identificador`. */
  function Numbered(d: ReportDocument, n: nat): (e: ReportDocument)
    ensures e.identifier == n && e.report.cabecera.identificador == Some(NatToString(n))
    ensures e.(identifier := d.identifier, report := d.report) == d
    ensures e.report.(cabecera := d.report.cabecera) == d.report
    ensures e.report.cabecera.(identificador := d.report.cabecera.identificador) == d.report.cabecera
  {
    d.(identifier := n,
       report := d.report.(cabecera := d.report.cabecera.(identificador := Some(NatToString(n)))))
  }

  /** `updateStatus`'s new document: status and error set, update time
      stamped; a FAILURE also counts a retry and stamps the retry time. */
  function WithStatusUpdate(d: ReportDocument, status: ReportStatus, error: Option<string>, now: Time): (u: ReportDocument)
    ensures u.status == status && u.error == error && u.updatedAt == now
    ensures u.retryCount == if status == FAILURE then d.retryCount + 1 else d.retryCount
    ensures u.lastRetryDate == if status == FAILURE then Some(now) else d.lastRetryDate
    ensures u.(status := d.status, error := d.error, updatedAt := d.updatedAt,
               retryCount := d.retryCount, lastRetryDate := d.lastRetryDate) == d
  {
    if status == FAILURE then
      d.(status := status, error := error, updatedAt := now,
         retryCount := d.retryCount + 1, lastRetryDate := Some(now))
    else
      d.(status := status, error := error, updatedAt := now)
  }

  /** The Reports container. */
  class ReportStore {
    var reports: seq<ReportDocument>
    var counter: Option<ReportCounter>
    /** Source of fresh entity tags: every tag in use is below it. */
    var etagClock: nat

    ghost predicate Valid()
      reads this
    {
      && UniqueIds(reports)
      && (counter.Some? ==> counter.value.id == CounterId && counter.value.etag < etagClock)
    }

    constructor ()
      ensures Valid() && reports == [] && counter == None
    {
      reports := [];
      counter := None;
      etagClock := 0;
    }

    /** Point read of the counter document. */
    method ReadCounter() returns (c: Option<ReportCounter>)
      ensures c == counter
    {
      c := counter;
    }

    /** `items.create` of the counter: none when it exists (the 409 conflict
        the caller answers by reading the counter again). */
    method CreateCounter(value: nat) returns (created: Option<ReportCounter>)
      requires Valid()
      modifies this
      ensures Valid() && reports == old(reports)
      ensures old(counter).Some? ==> created.None? && counter == old(counter)
      ensures old(counter).None? ==> created == Some(ReportCounter(CounterId, value, old(etagClock))) && counter == created
    {
      if counter.Some? {
        return None;
      }
      var c := ReportCounter(CounterId, value, etagClock);
      counter := Some(c);
      etagClock := etagClock + 1;
      created := Some(c);
    }

    /** Another writer's successful increment of the counter. */
    method RivalIncrement()
      requires Valid()
      modifies this
      ensures Valid() && reports == old(reports)
      ensures old(counter).None? ==> counter == None
      ensures old(counter).Some? ==>
        && counter.Some? && counter.value.currentValue == old(counter).value.currentValue + 1
        && counter.value.etag != old(counter).value.etag
    {
      if counter.Some? {
        counter := Some(counter.value.(currentValue := counter.value.currentValue + 1, etag := etagClock));
        etagClock := etagClock + 1;
      }
    }

    /** Another writer deletes the counter. */
    method RivalRemove()
      requires Valid()
      modifies this
      ensures Valid() && reports == old(reports) && counter == None
    {
      counter := None;
    }

    /** Point read of a report by id. */
    method ReadReport(id: string) returns (d: Option<ReportDocument>)
      ensures var i := IdIndex(reports, id); d == if i < |reports| then Some(reports[i]) else None
    {
      var i := 0;
      while i < |reports| && reports[i].id != id
        invariant i <= |reports|
        invariant forall j :: 0 <= j < i ==> reports[j].id != id
      {
        i := i + 1;
      }
      IdIndexIs(reports, id, i);
      d := if i < |reports| then Some(reports[i]) else None;
    }

    /** `items.upsert`. */
    method UpsertReport(d: ReportDocument)
      requires Valid()
      modifies this
      ensures Valid() && counter == old(counter) && reports == Upsert(old(reports), d)
    {
      UpsertUnique(reports, d);
      reports := Upsert(reports, d);
    }

    /** `item(id).replace`: overwrites the document with that id. */
    method ReplaceReport(d: ReportDocument) returns (ok: bool)
      requires Valid()
      modifies this
      ensures Valid() && counter == old(counter)
      ensures var i := IdIndex(old(reports), d.id);
        && ok == (i < |old(reports)|)
        && reports == if ok then old(reports)[i := d] else old(reports)
    {
      var i := IdIndex(reports, d.id);
      ok := i < |reports|;
      if ok {
        reports := reports[i := d];
      }
    }

    /** `items.batch` of a counter replace guarded by `ifMatch` and a report
        upsert: both apply, or, when the counter's tag is not `ifMatch`,
        neither. */
    method Batch(counterValue: nat, ifMatch: nat, d: ReportDocument) returns (ok: bool)
      requires Valid()
      modifies this
      ensures Valid()
      ensures ok <==> old(counter).Some? && old(counter).value.etag == ifMatch
      ensures ok ==>
        && counter == Some(old(counter).value.(currentValue := counterValue, etag := old(etagClock)))
        && reports == Upsert(old(reports), d)
      ensures !ok ==> counter == old(counter) && reports == old(reports)
    {
      if counter.None? || counter.value.etag != ifMatch {
        return false;
      }
      counter := Some(counter.value.(currentValue := counterValue, etag := etagClock));
      etagClock := etagClock + 1;
      UpsertUnique(reports, d);
      reports := Upsert(reports, d);
      ok := true;
    }
  }

  lemma IdIndexIs(reports: seq<ReportDocument>, id: string, i: nat)
    requires i <= |reports| && (i < |reports| ==> reports[i].id == id)
    requires forall j :: 0 <= j < i ==> reports[j].id != id
    ensures IdIndex(reports, id) == i
  {
  }

  lemma PeriodIndexIs(reports: seq<ReportDocument>, year: int, month: int, i: nat)
    requires i <= |reports| && (i < |reports| ==> InPeriod(reports[i], year, month))
    requires forall j :: 0 <= j < i ==> !InPeriod(reports[j], year, month)
    ensures PeriodIndex(reports, year, month) == i
  {
  }

  /** The counter value `getOrCreateCounter` reads, if it finds one. */
  function StartValue(counter: Option<ReportCounter>, race: CounterRace): Option<nat> {
    if counter.Some? then Some(counter.value.currentValue)
    else if race == RivalCreatesThenRemoves then None
    else Some(0)
  }

  class CosmosReportRepository {
    const store: ReportStore

    constructor (store: ReportStore)
      ensures this.store == store
    {
      this.store := store;
    }

    /** `getOrCreateCounter`: the counter, else a new one at 0; when the create
        conflicts the counter is read again and its absence is an error. */
    method GetOrCreateCounter(race: CounterRace) returns (r: Result<ReportCounter, RepositoryError>)
      requires store.Valid()
      modifies store
      ensures store.Valid() && store.reports == old(store.reports)
      ensures old(store.counter).Some? ==> r == Success(old(store.counter).value) && store.counter == old(store.counter)
      ensures r.Success? <==> StartValue(old(store.counter), race).Some?
      ensures r.Success? ==> store.counter == Some(r.value) && Some(r.value.currentValue) == StartValue(old(store.counter), race)
      ensures r.Failure? ==> r.error == CounterNotFoundAfterConflict && store.counter == None
    {
      var resource := store.ReadCounter();
      if resource.Some? {
        return Success(resource.value);
      }
      if race != NoRace {
        var _ := store.CreateCounter(0);
      }
      var created := store.CreateCounter(0);
      if created.Some? {
        return Success(created.value);
      }
      // Conflict: someone else created it first; read it again.
      if race == RivalCreatesThenRemoves {
        store.RivalRemove();
      }
      var existing := store.ReadCounter();
      if existing.None? {
        return Failure(CounterNotFoundAfterConflict);
      }
      r := Success(existing.value);
    }

    /** `findByYearAndMonth`: the first report of the period, or none. */
    method FindByYearAndMonth(year: int, month: int) returns (d: Option<ReportDocument>)
      ensures d == FirstInPeriod(store.reports, year, month)
    {
      var reports := store.reports;
      var i := 0;
      while i < |reports| && !(reports[i].year == year && reports[i].month == month)
        invariant i <= |reports|
        invariant forall j :: 0 <= j < i ==> !InPeriod(reports[j], year, month)
      {
        i := i + 1;
      }
      PeriodIndexIs(reports, year, month, i);
      d := if i < |reports| then Some(reports[i]) else None;
    }

    /** `findByStatus`: every report with the status, in query order. */
    method FindByStatus(status: ReportStatus) returns (found: seq<ReportDocument>)
      ensures found == WithStatus(store.reports, status)
    {
      var reports := store.reports;
      found := [];
      for i := 0 to |reports|
        invariant found == WithStatus(reports[..i], status)
      {
        ghost var next := reports[..i + 1];
        assert next[..|next| - 1] == reports[..i] && next[|next| - 1] == reports[i];
        assert WithStatus(next, status)
          == WithStatus(reports[..i], status) + (if reports[i].status == status then [reports[i]] else []);
        if reports[i].status == status {
          found := found + [reports[i]];
        }
      }
      assert reports[..|reports|] == reports;
    }

    /** `saveWithCounter`. A period that already has a report keeps that
        report's identifier and the counter is not touched; a new period is
        numbered counter + 1, written together with the counter in one batch
        guarded by the counter's tag. `race` is what another writer does to a
        missing counter; `rivalIncrements` says whether another writer bumps
        the counter between our read and our batch. */
    method SaveWithCounter(doc: ReportDocument, race: CounterRace, rivalIncrements: bool)
      returns (r: Result<ReportDocument, RepositoryError>)
      requires store.Valid()
      modifies store
      ensures store.Valid()
      ensures var existing := FirstInPeriod(old(store.reports), doc.year, doc.month);
        existing.Some? ==>
          && r == Success(doc.(identifier := existing.value.identifier))
          && store.reports == Upsert(old(store.reports), r.value)
          && store.counter == old(store.counter)
      ensures var start := StartValue(old(store.counter), race);
        FirstInPeriod(old(store.reports), doc.year, doc.month).None? ==>
          && (start.None? ==> r == Failure(CounterNotFoundAfterConflict) && store.reports == old(store.reports))
          && (start.Some? && rivalIncrements ==>
                && r == Failure(BatchOperationFailed) && store.reports == old(store.reports)
                && store.counter.Some? && store.counter.value.currentValue == start.value + 1)
          && (start.Some? && !rivalIncrements ==>
                && r == Success(Numbered(doc, start.value + 1))
                && store.reports == Upsert(old(store.reports), r.value)
                && store.counter.Some? && store.counter.value.currentValue == start.value + 1)
    {
      var existingReport := FindByYearAndMonth(doc.year, doc.month);
      if existingReport.Some? {
        var updatedReport := doc.(identifier := existingReport.value.identifier);
        store.UpsertReport(updatedReport);
        return Success(updatedReport);
      }
      var counter := GetOrCreateCounter(race);
      if counter.Failure? {
        return Failure(counter.error);
      }
      var nextValue := counter.value.currentValue + 1;
      var reportDoc := Numbered(doc, nextValue);
      if rivalIncrements {
        store.RivalIncrement();
      }
      var ok := store.Batch(nextValue, counter.value.etag, reportDoc);
      if !ok {
        return Failure(BatchOperationFailed);
      }
      r := Success(reportDoc);
    }

    /** `updateStatus`: status, error and update time set on the stored
        report, FAILURE also counting a retry; an unknown id is an error. */
    method UpdateStatus(id: string, status: ReportStatus, error: Option<string>, now: Time)
      returns (r: Result<(), RepositoryError>)
      requires store.Valid()
      modifies store
      ensures store.Valid() && store.counter == old(store.counter)
      ensures var i := IdIndex(old(store.reports), id);
        && (i == |old(store.reports)| ==> r == Failure(ReportNotFound(id)) && store.reports == old(store.reports))
        && (i < |old(store.reports)| ==>
              r.Success? && store.reports == old(store.reports)[i := WithStatusUpdate(old(store.reports)[i], status, error, now)])
    {
      var resource := store.ReadReport(id);
      if resource.None? {
        return Failure(ReportNotFound(id));
      }
      var ok := store.ReplaceReport(WithStatusUpdate(resource.value, status, error, now));
      r := Success(());
    }
  }

  /** Saving a period's report again keeps the identifier its first save
      was given. */
  lemma ResaveKeepsIdentifier(reports: seq<ReportDocument>, first: ReportDocument, n: nat, again: ReportDocument)
    requires FirstInPeriod(reports, first.year, first.month).None?
    requires again.year == first.year && again.month == first.month
    ensures var stored := Upsert(reports, Numbered(first, n));
      && FirstInPeriod(stored, again.year, again.month).Some?
      && FirstInPeriod(stored, again.year, again.month).value.identifier == n
  {
    UpsertFound(reports, Numbered(first, n));
  }
}
