/** The per-year ticket counter (CosmosTicketNumberGenerator.ts): number
    formatting, the bounded retry loop around an entity-tag guarded
    increment, and create-or-reread of the counter document. */
module TicketNumbers {
  import opened Results
  import opened Decimal
  import opened CounterStore

  const MaxRetries: nat := 3
  const RetryDelayBase: nat := 100
  const Prefix: string := "T"
  const Padding: nat := 4

  datatype GenError =
    | MaxRetriesExceeded
    | CounterNotFound
    | CounterNotFoundAfterConflict
    | StoreFailure(code: int)

  function Message(e: GenError): string {
    match e
    case MaxRetriesExceeded => "Failed to generate ticket number after max retries"
    case CounterNotFound => "Counter document not found"
    case CounterNotFoundAfterConflict => "Counter not found after conflict"
    case StoreFailure(_) => "Cosmos DB request failed"
  }

  /** `CounterConcurrencyError` carrying the latest document, or any other error. */
  datatype IncrementError = ConcurrencyConflict(latest: CounterDoc) | IncrementFailed(error: GenError)

  function Max(a: nat, b: nat): nat {
    if a < b then b else a
  }

  /** `getCurrentYear`: the last two characters of the full year's digits. */
  function YearSuffix(fullYear: nat): (y: string)
    ensures AllDigits(y)
    ensures fullYear >= 10 ==> |y| == 2 && DigitsValue(y) == fullYear % 100
  {
    var s := NatToString(fullYear);
    if |s| >= 2 then
      YearSuffixValue(fullYear);
      s[|s| - 2..]
    else
      s
  }

  lemma LastDigit(n: nat)
    ensures NatToString(n)[|NatToString(n)| - 1] == DigitChar(n % 10)
  {
  }

  lemma YearSuffixValue(n: nat)
    requires n >= 10
    ensures var s := NatToString(n);
      && |s[|s| - 2..]| == 2 && AllDigits(s[|s| - 2..])
      && DigitsValue(s[|s| - 2..]) == n % 100
  {
    var s := NatToString(n);
    var t := NatToString(n / 10);
    assert s == t + [DigitChar(n % 10)];
    LastDigit(n / 10);
    assert s[|s| - 2..] == [DigitChar(n / 10 % 10), DigitChar(n % 10)];
    TwoDigitsValue(n / 10 % 10, n % 10);
    LastDigitOfRest(n);
    assert n % 100 == 10 * (n % 100 / 10) + n % 100 % 10;
  }

  /** `formatTicketNumber`: "T" + year + "-" + the value left-padded with '0'
      to at least four digits; longer values are kept whole. */
  function FormatTicketNumber(year: string, value: nat): (t: string)
    ensures |t| == |year| + 2 + Max(Padding, |NatToString(value)|)
    ensures t[..|year| + 2] == Prefix + year + "-"
    ensures AllDigits(t[|year| + 2..]) && DigitsValue(t[|year| + 2..]) == value
    ensures |NatToString(value)| >= Padding ==> t[|year| + 2..] == NatToString(value)
  {
    var digits := PadStart(NatToString(value), Padding, '0');
    PaddedRoundTrip(value, Padding);
    var t := Prefix + year + "-" + digits;
    assert t[|year| + 2..] == digits;
    t
  }

  /** Two ticket numbers of same-length years are equal only for the same
      year and the same counter value. */
  lemma FormatTicketNumberInjective(y1: string, v1: nat, y2: string, v2: nat)
    requires |y1| == |y2|
    requires FormatTicketNumber(y1, v1) == FormatTicketNumber(y2, v2)
    ensures y1 == y2 && v1 == v2
  {
    var t := FormatTicketNumber(y1, v1);
    assert y1 == (Prefix + y1 + "-")[1..|y1| + 1];
    assert y2 == (Prefix + y2 + "-")[1..|y2| + 1];
  }

  function Pow2(k: nat): (p: nat)
    ensures p >= 1
  {
    if k == 0 then 1 else 2 * Pow2(k - 1)
  }

  /** `calculateRetryDelay`: 2^k * 100 ms, so at least the base delay, and
      each further retry waits twice as long as the one before. */
  function CalculateRetryDelay(retryCount: nat): (d: nat)
    ensures d >= RetryDelayBase
    ensures retryCount > 0 ==> d == 2 * CalculateRetryDelay(retryCount - 1)
  {
    Pow2(retryCount) * RetryDelayBase
  }

  function CounterId(year: string): string {
    "counter-" + year
  }

  function RivalAt(rivals: seq<Rival>, k: nat): Rival {
    if k < |rivals| then rivals[k] else Quiet
  }

  /** How many attempts in a row, from attempt `k`, a rival's increment
      defeats (at most up to the retry limit). */
  function ConflictsFrom(rivals: seq<Rival>, k: nat): (n: nat)
    requires k <= MaxRetries
    ensures k + n <= MaxRetries
    ensures forall i :: k <= i < k + n ==> RivalAt(rivals, i) == Increment
    ensures k + n < MaxRetries ==> RivalAt(rivals, k + n) != Increment
    decreases MaxRetries - k
  {
    if k == MaxRetries || RivalAt(rivals, k) != Increment then 0
    else 1 + ConflictsFrom(rivals, k + 1)
  }

  /** The number of leading conflicting attempts. */
  function Conflicts(rivals: seq<Rival>): nat
    ensures Conflicts(rivals) <= MaxRetries
  {
    ConflictsFrom(rivals, 0)
  }

  /** The value the counter of `year` starts from: the stored one, or 0 for
      a counter about to be created. */
  ghost function StartValue(docs: map<string, CounterDoc>, year: string): nat {
    match CounterFor(docs, year)
    case Some(d) => d.currentValue
    case None => 0
  }

  /** A counter for `year` exists or can be created under its canonical id. */
  ghost predicate Obtainable(docs: map<string, CounterDoc>, year: string) {
    CounterFor(docs, year).Some? || CounterId(year) !in docs
  }

  class TicketNumberGenerator {
    const store: CounterStore

    constructor (store: CounterStore)
      ensures this.store == store
    {
      this.store := store;
    }

    /** `getOrCreateCounter`: the year's counter, else a new one at 0 under
        `counter-{year}`; on a create conflict the counter is read again and
        its absence is an error. `createRace` says whether another writer
        creates the counter between our lookup and our create. */
    method GetOrCreateCounter(year: string, createRace: bool) returns (r: Result<CounterDoc, GenError>)
      requires store.Valid()
      modifies store
      ensures store.Valid()
      ensures old(CounterFor(store.docs, year)).Some? ==>
        r == Success(old(CounterFor(store.docs, year)).value) && store.docs == old(store.docs)
      ensures old(Obtainable(store.docs, year)) <==> r.Success?
      ensures r.Success? ==>
        && r.value.year == year && r.value.currentValue == old(StartValue(store.docs, year))
        && r.value.id in store.docs && store.docs[r.value.id] == r.value
      ensures r.Failure? ==> r.error == CounterNotFoundAfterConflict && store.docs == old(store.docs)
      ensures old(CounterFor(store.docs, year)).None? && r.Success? ==>
        r.value.id == CounterId(year) && store.docs == old(store.docs)[CounterId(year) := r.value]
      ensures OtherYearsKept(old(store.docs), store.docs, year)
    {
      var existing := store.QueryByYear(year);
      if existing.Some? {
        return Success(existing.value);
      }
      var id := CounterId(year);
      if createRace {
        var _ := store.Create(id, year, 0);
      }
      var created := store.Create(id, year, 0);
      if created.Success? {
        CounterForIs(store.docs, year, id);
        return Success(created.value);
      }
      // Conflict: someone holds the id; read the year's counter again.
      var again := store.QueryByYear(year);
      if again.Some? {
        return Success(again.value);
      }
      r := Failure(CounterNotFoundAfterConflict);
    }

    /** `incrementTicketNumber`: replaces the counter with currentValue + 1 if
        its entity tag is still the one read; on a precondition failure reads
        the latest document and reports a concurrency conflict carrying it.
        `rival` is what another writer does during the attempt. */
    method IncrementTicketNumber(counterDoc: CounterDoc, rival: Rival) returns (r: Result<nat, IncrementError>)
      requires store.Valid()
      requires counterDoc.id in store.docs ==> store.docs[counterDoc.id] == counterDoc
      modifies store
      ensures store.Valid()
      ensures rival == Quiet && counterDoc.id in old(store.docs) ==>
        && r == Success(counterDoc.currentValue + 1) && counterDoc.id in store.docs
        && store.docs == old(store.docs)[counterDoc.id := counterDoc.(currentValue := r.value, etag := store.docs[counterDoc.id].etag)]
      ensures (rival == Remove || counterDoc.id !in old(store.docs)) ==>
        r == Failure(IncrementFailed(StoreFailure(404))) && store.docs == old(store.docs) - {counterDoc.id}
      ensures rival == Increment && counterDoc.id in old(store.docs) ==>
        && r.Failure? && r.error.ConcurrencyConflict?
        && r.error.latest == counterDoc.(currentValue := counterDoc.currentValue + 1, etag := r.error.latest.etag)
        && store.docs == old(store.docs)[counterDoc.id := r.error.latest]
      ensures rival == IncrementThenRemove && counterDoc.id in old(store.docs) ==>
        r == Failure(IncrementFailed(CounterNotFound)) && store.docs == old(store.docs) - {counterDoc.id}
      ensures OtherYearsKept(old(store.docs), store.docs, counterDoc.year)
    {
      var id := counterDoc.id;
      if rival == Increment || rival == IncrementThenRemove {
        store.RivalIncrement(id);
      } else if rival == Remove {
        store.RivalRemove(id);
      }
      var nextValue := counterDoc.currentValue + 1;
      var replaced := store.Replace(id, nextValue, counterDoc.etag);
      if replaced.Success? {
        return Success(nextValue);
      }
      if replaced.error != PreconditionFailed {
        return Failure(IncrementFailed(StoreFailure(StatusCode(replaced.error))));
      }
      if rival == IncrementThenRemove {
        store.RivalRemove(id);
      }
      var latest := store.Read(id);
      if latest.None? {
        return Failure(IncrementFailed(CounterNotFound));
      }
      r := Failure(ConcurrencyConflict(latest.value));
    }

    /** `generateNext`: the next ticket number of `fullYear`'s counter. At most
        MaxRetries increments are tried; after the k-th conflict the counter
        read with it is used and the wait is `CalculateRetryDelay(k)`
        (recorded in `delays`); any other error ends the loop at once.
        `rivals[k]` is what another writer does during attempt k. */
    method GenerateNext(fullYear: nat, createRace: bool, rivals: seq<Rival>)
      returns (r: Result<string, GenError>, delays: seq<nat>)
      requires store.Valid()
      modifies store
      ensures store.Valid()
      ensures |delays| < MaxRetries && forall i :: 0 <= i < |delays| ==> delays[i] == CalculateRetryDelay(i + 1)
      ensures !old(Obtainable(store.docs, YearSuffix(fullYear))) ==>
        r == Failure(CounterNotFoundAfterConflict) && delays == [] && store.docs == old(store.docs)
      ensures old(Obtainable(store.docs, YearSuffix(fullYear))) ==>
        var year, start, k := YearSuffix(fullYear), old(StartValue(store.docs, YearSuffix(fullYear))), Conflicts(rivals);
        && (k == MaxRetries ==>
              && r == Failure(MaxRetriesExceeded) && |delays| == MaxRetries - 1
              && CounterFor(store.docs, year).Some?
              && CounterFor(store.docs, year).value.currentValue == start + MaxRetries)
        && (k < MaxRetries ==> |delays| == k)
        && (k < MaxRetries && RivalAt(rivals, k) == Quiet ==>
              && r == Success(FormatTicketNumber(year, start + k + 1))
              && CounterFor(store.docs, year).Some?
              && CounterFor(store.docs, year).value.currentValue == start + k + 1)
        && (k < MaxRetries && RivalAt(rivals, k) == Remove ==>
              r == Failure(StoreFailure(404)) && CounterFor(store.docs, year).None?)
        && (k < MaxRetries && RivalAt(rivals, k) == IncrementThenRemove ==>
              r == Failure(CounterNotFound) && CounterFor(store.docs, year).None?)
      ensures OtherYearsKept(old(store.docs), store.docs, YearSuffix(fullYear))
    {
      var year := YearSuffix(fullYear);
      ghost var start := StartValue(store.docs, year);
      ghost var k := Conflicts(rivals);
      ghost var docs0 := store.docs;
      var retryCount := 0;
      delays := [];
      var got := GetOrCreateCounter(year, createRace);
      if got.Failure? {
        return Failure(got.error), delays;
      }
      var counterDoc := got.value;

      while retryCount < MaxRetries
        invariant store.Valid()
        invariant 0 <= retryCount <= k && retryCount < MaxRetries
        invariant counterDoc.id in store.docs && store.docs[counterDoc.id] == counterDoc
        invariant counterDoc.year == year && counterDoc.currentValue == start + retryCount
        invariant |delays| == retryCount
        invariant forall i :: 0 <= i < |delays| ==> delays[i] == CalculateRetryDelay(i + 1)
        invariant OtherYearsKept(docs0, store.docs, year)
      {
        var rival := RivalAt(rivals, retryCount);
        assert retryCount < k ==> rival == Increment;
        ghost var before := store.docs;
        var outcome := IncrementTicketNumber(counterDoc, rival);
        OtherYearsKeptTrans(docs0, before, store.docs, year);
        if outcome.Success? {
          assert rival == Quiet && retryCount == k;
          CounterForIs(store.docs, year, counterDoc.id);
          return Success(FormatTicketNumber(year, outcome.value)), delays;
        }
        if outcome.error.IncrementFailed? {
          assert rival != Increment && retryCount == k;
          CounterForNone(store.docs, year);
          return Failure(outcome.error.error), delays;
        }
        assert rival == Increment;
        counterDoc := outcome.error.latest;
        retryCount := retryCount + 1;
        if retryCount == MaxRetries {
          CounterForIs(store.docs, year, counterDoc.id);
          return Failure(MaxRetriesExceeded), delays;
        }
        delays := delays + [CalculateRetryDelay(retryCount)];
      }
      r := Failure(MaxRetriesExceeded);
    }
  }

  /** The waits between attempts are 200 ms and then 400 ms. */
  lemma RetryDelays()
    ensures CalculateRetryDelay(1) == 200 && CalculateRetryDelay(2) == 400
  {
  }
}
