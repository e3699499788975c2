/** The reporting module's API (ReportingModule.ts): the two cron jobs it
    registers, generating and saving a month's report, and finding or
    generating the report to send. The tickets of the month and its
    formatted last day, which the generator fetches and computes, are
    inputs, as are the clock and the repository's races. */
module Reporting {
  import opened Results
  import opened Decimal
  import MonthlyReports
  import ReportRepository
  import TaskScheduler
  import TaxGrouping

  const RetriesJob: string := "failed-reports-retries"
  const RetriesCron: string := "0 0 0/4 * * *"
  const MonthlyJob: string := "monthly-report"
  const MonthlyCron: string := "0 0 1 1 * *"

  datatype ReportingError =
    | ReportFailed(reason: MonthlyReports.ReportError)
    | SaveFailed(cause: ReportRepository.RepositoryError)

  /** A report document's id: the year, a dash and the month on two digits. */
  function DocumentId(year: nat, month: nat): (id: string)
    ensures |id| >= |NatToString(year)| + 3
    ensures id[..|NatToString(year)|] == NatToString(year) && id[|NatToString(year)|] == '-'
    ensures AllDigits(id[|NatToString(year)| + 1..]) && DigitsValue(id[|NatToString(year)| + 1..]) == month
    ensures month < 100 ==> |id| == |NatToString(year)| + 3
  {
    var y, m := NatToString(year), PadStart(NatToString(month), 2, '0');
    PaddedRoundTrip(month, 2);
    var id := y + "-" + m;
    assert id[|y| + 1..] == m;
    id
  }

  /** Where the first dash of `s` is, `|s|` when there is none. */
  function DashIndex(s: string): (i: nat)
    ensures i <= |s|
  {
    if s == [] then 0 else if s[0] == '-' then 0 else 1 + DashIndex(s[1..])
  }

  /** A dash after a run of digits is the first one. */
  lemma {:induction false} DashAfterDigits(a: string, rest: string)
    requires AllDigits(a)
    ensures DashIndex(a + "-" + rest) == |a|
  {
    if a != [] {
      assert (a + "-" + rest)[1..] == a[1..] + "-" + rest;
      DashAfterDigits(a[1..], rest);
    }
  }

  /** Two periods share a document id only when they are the same period. */
  lemma DocumentIdInjective(y1: nat, m1: nat, y2: nat, m2: nat)
    ensures DocumentId(y1, m1) == DocumentId(y2, m2) <==> y1 == y2 && m1 == m2
  {
    if DocumentId(y1, m1) == DocumentId(y2, m2) {
      var a, b := NatToString(y1), NatToString(y2);
      var p1, p2 := PadStart(NatToString(m1), 2, '0'), PadStart(NatToString(m2), 2, '0');
      var s := DocumentId(y1, m1);
      DashAfterDigits(a, p1);
      DashAfterDigits(b, p2);
      assert a == s[..|a|] == b;
      assert p1 == s[|a| + 1..] == p2;
      NatToStringInjective(y1, y2);
      PaddedRoundTrip(m1, 2);
      PaddedRoundTrip(m2, 2);
    }
  }

  /** What `generateReport` yields for the month's tickets. */
  function ExpectedReport(year: nat, month: nat, lastDayFormatted: string, tickets: seq<MonthlyReports.Ticket>)
    : Result<MonthlyReports.MonthlyReport, MonthlyReports.ReportError>
  {
    if tickets == [] then Failure(MonthlyReports.NoTickets)
    else if MonthlyReports.SignedTotal(tickets, |tickets|) != MonthlyReports.SignedLinesTotal(tickets, |tickets|) then
      Failure(MonthlyReports.TotalMismatch)
    else
      Success(MonthlyReports.ReportOf(year, month, lastDayFormatted, tickets[0], tickets[|tickets| - 1],
                                      TaxGrouping.Grouped(MonthlyReports.ReportEntries(tickets, |tickets|)),
                                      MonthlyReports.SignedTotal(tickets, |tickets|)))
  }

  /** The document `generateMonthlyReport` hands to `saveWithCounter`, before
      it is numbered. */
  function NewDocument(year: nat, month: nat, report: MonthlyReports.MonthlyReport, now: ReportRepository.Time)
    : ReportRepository.ReportDocument
  {
    ReportRepository.ReportDocument(DocumentId(year, month), year, month, 0, ReportRepository.PENDING,
                                    0, None, now, now, report, None)
  }

  /** The period the monthly job asks for, as written: the year and the
      zero-based month (`getMonth()`) of the day it fires. */
  function MonthlyJobPeriodAsWritten(year: int, monthIndex: nat): (int, nat) {
    (year, monthIndex)
  }

  /** From February to December the zero-based month of the first day is the
      one-based number of the month before, so the job asks for the month
      that just ended; on the first of January it asks for month 0, which is
      no month, and so differs from the month just ended exactly then. */
  lemma MonthlyJobPeriodJanuary(year: int, monthIndex: nat)
    requires monthIndex < 12
    ensures var p := MonthlyJobPeriodAsWritten(year, monthIndex);
      monthIndex != 0 ==> 1 <= p.1 <= 12 && p.0 * 12 + p.1 == year * 12 + monthIndex
    ensures MonthlyJobPeriodAsWritten(year, 0).1 == 0
    ensures MonthlyJobPeriodAsWritten(year, monthIndex) == PreviousPeriod(year, monthIndex) <==> monthIndex != 0
  {
  }

  /** As written, the job never asks for December. */
  lemma AsWrittenNeverDecember(year: int, monthIndex: nat)
    requires monthIndex < 12
    ensures MonthlyJobPeriodAsWritten(year, monthIndex).1 != 12
  {
  }

  /** The document id of month 0, which January's run asks for, is the id of
      no month of any year. */
  lemma MonthZeroIdUnused(year: nat)
    ensures forall y: nat, m: nat :: 1 <= m <= 12 ==> DocumentId(y, m) != DocumentId(year, 0)
  {
    forall y: nat, m: nat | 1 <= m <= 12
      ensures DocumentId(y, m) != DocumentId(year, 0)
    {
      DocumentIdInjective(y, m, year, 0);
    }
  }

  /** The month before the one with zero-based index `monthIndex`: December of
      the previous year in January. */
  function PreviousPeriod(year: int, monthIndex: nat): (p: (int, nat))
    requires monthIndex < 12
    ensures 1 <= p.1 <= 12
    ensures p.0 * 12 + p.1 == year * 12 + monthIndex
  {
    if monthIndex == 0 then (year - 1, 12) else (year, monthIndex)
  }

  class ReportingModule {
    const scheduler: TaskScheduler.CronTaskScheduler
    const repository: ReportRepository.CosmosReportRepository

    constructor (scheduler: TaskScheduler.CronTaskScheduler, repository: ReportRepository.CosmosReportRepository)
      ensures this.scheduler == scheduler && this.repository == repository
    {
      this.scheduler := scheduler;
      this.repository := repository;
    }

    /** The constructor's job registration: the retries job, then the monthly
        job; the first rejected expression stops it. */
    method RegisterJobs() returns (r: Result<(), TaskScheduler.SchedulerError>)
      requires scheduler.Valid() && scheduler.jobs == []
      modifies scheduler
      ensures scheduler.Valid()
      ensures !scheduler.validateCron(RetriesCron) ==>
        r == Failure(TaskScheduler.InvalidCronExpression(RetriesCron)) && scheduler.jobs == []
      ensures scheduler.validateCron(RetriesCron) && !scheduler.validateCron(MonthlyCron) ==>
        r == Failure(TaskScheduler.InvalidCronExpression(MonthlyCron)) && TaskScheduler.Names(scheduler.jobs) == [RetriesJob]
      ensures scheduler.validateCron(RetriesCron) && scheduler.validateCron(MonthlyCron) ==>
        && r.Success? && TaskScheduler.Names(scheduler.jobs) == [RetriesJob, MonthlyJob]
        && forall i :: 0 <= i < |scheduler.jobs| ==> scheduler.jobs[i].scheduled && !scheduler.jobs[i].definition.isRunning
      ensures r.Success? ==>
        scheduler.jobs == [TaskScheduler.Job(TaskScheduler.ScheduledTask(RetriesJob, RetriesCron, "retryFailedReports", false, None, None, 0), true),
                           TaskScheduler.Job(TaskScheduler.ScheduledTask(MonthlyJob, MonthlyCron, "sendReport", false, None, None, 0), true)]
    {
      r := scheduler.AddJob(RetriesJob, RetriesCron, "retryFailedReports");
      if r.Failure? {
        return;
      }
      assert TaskScheduler.Names(scheduler.jobs) == [RetriesJob];
      r := scheduler.AddJob(MonthlyJob, MonthlyCron, "sendReport");
    }

    /** `generateMonthlyReport`: the month's report, saved as a PENDING
        document with no retries under the period's id and numbered by the
        repository. */
    method GenerateMonthlyReport(year: nat, month: nat, lastDayFormatted: string, tickets: seq<MonthlyReports.Ticket>,
                                 now: ReportRepository.Time, race: ReportRepository.CounterRace, rivalIncrements: bool)
      returns (r: Result<ReportRepository.ReportDocument, ReportingError>)
      requires repository.store.Valid()
      modifies repository.store
      ensures repository.store.Valid()
      ensures var g := ExpectedReport(year, month, lastDayFormatted, tickets);
        g.Failure? ==>
          && r == Failure(ReportFailed(g.error))
          && repository.store.reports == old(repository.store.reports)
          && repository.store.counter == old(repository.store.counter)
      ensures var g := ExpectedReport(year, month, lastDayFormatted, tickets);
        var existing := ReportRepository.FirstInPeriod(old(repository.store.reports), year, month);
        g.Success? && existing.Some? ==>
          && r == Success(NewDocument(year, month, g.value, now).(identifier := existing.value.identifier))
          && repository.store.reports == ReportRepository.Upsert(old(repository.store.reports), r.value)
          && repository.store.counter == old(repository.store.counter)
      ensures var g := ExpectedReport(year, month, lastDayFormatted, tickets);
        var existing := ReportRepository.FirstInPeriod(old(repository.store.reports), year, month);
        var start := ReportRepository.StartValue(old(repository.store.counter), race);
        g.Success? && existing.None? ==>
          && (r.Success? <==> start.Some? && !rivalIncrements)
          && (r.Success? ==>
                && r.value == ReportRepository.Numbered(NewDocument(year, month, g.value, now), start.value + 1)
                && repository.store.reports == ReportRepository.Upsert(old(repository.store.reports), r.value)
                && repository.store.counter.Some? && repository.store.counter.value.currentValue == start.value + 1)
          && (r.Failure? ==> r.error.SaveFailed? && repository.store.reports == old(repository.store.reports))
      ensures r.Success? ==>
        && r.value.id == DocumentId(year, month) && r.value.year == year && r.value.month == month
        && r.value.status == ReportRepository.PENDING && r.value.retryCount == 0
        && r.value in repository.store.reports
    {
      var report := MonthlyReports.GenerateReport(year, month, lastDayFormatted, tickets);
      if report.Failure? {
        return Failure(ReportFailed(report.error));
      }
      var saved := repository.SaveWithCounter(NewDocument(year, month, report.value, now), race, rivalIncrements);
      if saved.Failure? {
        return Failure(SaveFailed(saved.error));
      }
      r := Success(saved.value);
    }

    /** `sendReport`, up to the hand-over to the sender: the period's stored
        report, else a newly generated one. The result is the document that
        would be sent. */
    method SendReport(year: nat, month: nat, lastDayFormatted: string, tickets: seq<MonthlyReports.Ticket>,
                      now: ReportRepository.Time, race: ReportRepository.CounterRace, rivalIncrements: bool)
      returns (r: Result<ReportRepository.ReportDocument, ReportingError>)
      requires repository.store.Valid()
      modifies repository.store
      ensures repository.store.Valid()
      ensures var existing := ReportRepository.FirstInPeriod(old(repository.store.reports), year, month);
        existing.Some? ==>
          && r == Success(existing.value)
          && repository.store.reports == old(repository.store.reports)
          && repository.store.counter == old(repository.store.counter)
      ensures var existing := ReportRepository.FirstInPeriod(old(repository.store.reports), year, month);
        var g := ExpectedReport(year, month, lastDayFormatted, tickets);
        existing.None? && g.Failure? ==> r == Failure(ReportFailed(g.error))
      ensures var existing := ReportRepository.FirstInPeriod(old(repository.store.reports), year, month);
        var g := ExpectedReport(year, month, lastDayFormatted, tickets);
        var start := ReportRepository.StartValue(old(repository.store.counter), race);
        existing.None? && g.Success? ==>
          && (r.Success? <==> start.Some? && !rivalIncrements)
          && (r.Success? ==> r.value == ReportRepository.Numbered(NewDocument(year, month, g.value, now), start.value + 1))
      ensures ReportRepository.FirstInPeriod(old(repository.store.reports), year, month).None? ==>
        && (r.Failure? ==> repository.store.reports == old(repository.store.reports))
        && (r.Success? ==> repository.store.reports == ReportRepository.Upsert(old(repository.store.reports), r.value))
      ensures r.Success? ==>
        r.value.year == year && r.value.month == month && r.value in repository.store.reports
    {
      var existing := repository.FindByYearAndMonth(year, month);
      if existing.Some? {
        return Success(existing.value);
      }
      ghost var reports0, counter0 := repository.store.reports, repository.store.counter;
      ghost var g := ExpectedReport(year, month, lastDayFormatted, tickets);
      ghost var start := ReportRepository.StartValue(counter0, race);
      assert ReportRepository.FirstInPeriod(reports0, year, month).None?;
      r := GenerateMonthlyReport(year, month, lastDayFormatted, tickets, now, race, rivalIncrements);
      assert g.Failure? ==> r == Failure(ReportFailed(g.error));
      assert g.Success? ==> (r.Success? <==> start.Some? && !rivalIncrements);
      assert g.Success? && r.Success? ==> r.value == ReportRepository.Numbered(NewDocument(year, month, g.value, now), start.value + 1);
    }

    /** The monthly job's run on the first day of a month, as written: the
        report of the year and zero-based month of today. From February to
        December that is the month just ended; in January it is month 0,
        stored under an id no real month has. */
    method RunMonthlyJob(todayYear: nat, todayMonthIndex: nat, lastDayFormatted: string, tickets: seq<MonthlyReports.Ticket>,
                         now: ReportRepository.Time, race: ReportRepository.CounterRace, rivalIncrements: bool)
      returns (r: Result<ReportRepository.ReportDocument, ReportingError>)
      requires repository.store.Valid()
      requires todayMonthIndex < 12
      modifies repository.store
      ensures repository.store.Valid()
      ensures r.Success? ==>
        && r.value.year == todayYear && r.value.month == todayMonthIndex && r.value.month != 12
        && r.value in repository.store.reports
      ensures ReportRepository.FirstInPeriod(old(repository.store.reports), todayYear, todayMonthIndex).None? && r.Success? ==>
        r.value.id == DocumentId(todayYear, todayMonthIndex)
      ensures ReportRepository.FirstInPeriod(old(repository.store.reports), todayYear, todayMonthIndex).Some? ==>
        repository.store.reports == old(repository.store.reports)
      ensures r.Failure? ==> repository.store.reports == old(repository.store.reports)
      ensures r.Success? ==> repository.store.reports == ReportRepository.Upsert(old(repository.store.reports), r.value)
    {
      var period := MonthlyJobPeriodAsWritten(todayYear, todayMonthIndex);
      r := SendReport(period.0 as nat, period.1, lastDayFormatted, tickets, now, race, rivalIncrements);
    }

    /** The monthly job as evidently intended: the report of the month that
        has just ended, December of the previous year in January. */
    method RunMonthlyJobCorrected(todayYear: int, todayMonthIndex: nat, lastDayFormatted: string, tickets: seq<MonthlyReports.Ticket>,
                                  now: ReportRepository.Time, race: ReportRepository.CounterRace, rivalIncrements: bool)
      returns (r: Result<ReportRepository.ReportDocument, ReportingError>)
      requires repository.store.Valid()
      requires 0 < todayYear && todayMonthIndex < 12
      modifies repository.store
      ensures repository.store.Valid()
      ensures r.Success? ==>
        && 1 <= r.value.month <= 12
        && r.value.year * 12 + r.value.month == todayYear * 12 + todayMonthIndex
        && r.value in repository.store.reports
      ensures r.Failure? ==> repository.store.reports == old(repository.store.reports)
      ensures r.Success? ==> repository.store.reports == ReportRepository.Upsert(old(repository.store.reports), r.value)
    {
      var period := PreviousPeriod(todayYear, todayMonthIndex);
      r := SendReport(period.0, period.1, lastDayFormatted, tickets, now, race, rivalIncrements);
    }
  }
}
