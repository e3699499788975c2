/** In-memory stand-in for the Cosmos DB container that holds the per-year
    ticket counter documents (CosmosTicketNumberGenerator.ts): documents by id,
    each with an entity tag that every write replaces with a fresh one, a
    `create` that fails with a conflict when the id is taken, and a `replace`
    guarded by an If-Match entity tag. */
module CounterStore {
  import opened Results

  /** `CounterDocument`: id, year, currentValue and `_etag`. */
  datatype CounterDoc = CounterDoc(id: string, year: string, currentValue: nat, etag: nat)

  /** The store's error codes that the generator looks at. */
  datatype StoreError = Conflict | PreconditionFailed | NotFound

  function StatusCode(e: StoreError): int {
    match e
    case Conflict => 409
    case PreconditionFailed => 412
    case NotFound => 404
  }

  /** What another writer does to a counter while one increment attempt is
      in flight: nothing; a successful increment of its own (so the entity
      tag we hold is stale); deleting the counter; or an increment followed
      by a delete before we re-read. */
  datatype Rival = Quiet | Increment | Remove | IncrementThenRemove

  /** At most one counter document per year. */
  ghost predicate UniqueYears(docs: map<string, CounterDoc>) {
    forall a, b :: a in docs && b in docs && docs[a].year == docs[b].year ==> a == b
  }

  /** The counter document of `year`, if there is one. */
  ghost function CounterFor(docs: map<string, CounterDoc>, year: string): Option<CounterDoc> {
    if exists id :: id in docs && docs[id].year == year then
      var id :| id in docs && docs[id].year == year;
      Some(docs[id])
    else
      None
  }

  /** Every document of a year other than `year` is still there, unchanged. */
  ghost predicate OtherYearsKept(before: map<string, CounterDoc>, after: map<string, CounterDoc>, year: string) {
    forall id :: id in before && before[id].year != year ==> id in after && after[id] == before[id]
  }

  lemma OtherYearsKeptTrans(a: map<string, CounterDoc>, b: map<string, CounterDoc>, c: map<string, CounterDoc>, year: string)
    requires OtherYearsKept(a, b, year) && OtherYearsKept(b, c, year)
    ensures OtherYearsKept(a, c, year)
  {
  }

  lemma CounterForIs(docs: map<string, CounterDoc>, year: string, id: string)
    requires UniqueYears(docs) && id in docs && docs[id].year == year
    ensures CounterFor(docs, year) == Some(docs[id])
  {
  }

  lemma CounterForNone(docs: map<string, CounterDoc>, year: string)
    requires forall id :: id in docs ==> docs[id].year != year
    ensures CounterFor(docs, year) == None
  {
  }

  class CounterStore {
    var docs: map<string, CounterDoc>
    /** Source of fresh entity tags: every tag in use is below it. */
    var etagClock: nat

    ghost predicate Valid()
      reads this
    {
      && (forall id :: id in docs ==> docs[id].id == id && docs[id].etag < etagClock)
      && UniqueYears(docs)
    }

    constructor ()
      ensures Valid() && docs == map[]
    {
      docs := map[];
      etagClock := 0;
    }

    /** Point read by id. */
    method Read(id: string) returns (d: Option<CounterDoc>)
      ensures d == if id in docs then Some(docs[id]) else None
    {
      d := if id in docs then Some(docs[id]) else None;
    }

    /** The query `type = 'counter' AND year = @year`, first result or null. */
    method QueryByYear(year: string) returns (d: Option<CounterDoc>)
      requires Valid()
      ensures d == CounterFor(docs, year)
      ensures d.Some? ==> d.value.id in docs && docs[d.value.id] == d.value && d.value.year == year
    {
      if exists id :: id in docs && docs[id].year == year {
        var id :| id in docs && docs[id].year == year;
        d := Some(docs[id]);
        CounterForIs(docs, year, id);
      } else {
        d := None;
      }
    }

    /** `items.create`: fails with a conflict when the id is taken; otherwise
        stores the document under a fresh entity tag. */
    method Create(id: string, year: string, value: nat) returns (r: Result<CounterDoc, StoreError>)
      requires Valid()
      requires id in docs || CounterFor(docs, year).None?
      modifies this
      ensures Valid()
      ensures id in old(docs) ==> r == Failure(Conflict) && docs == old(docs)
      ensures id !in old(docs) ==>
        && r == Success(CounterDoc(id, year, value, old(etagClock)))
        && docs == old(docs)[id := r.value]
    {
      if id in docs {
        return Failure(Conflict);
      }
      var d := CounterDoc(id, year, value, etagClock);
      docs := docs[id := d];
      etagClock := etagClock + 1;
      r := Success(d);
    }

    /** `item(id).replace(body, IfMatch ifMatch)`: writes the new value under
        a fresh entity tag only when the stored tag equals `ifMatch`. */
    method Replace(id: string, value: nat, ifMatch: nat) returns (r: Result<CounterDoc, StoreError>)
      requires Valid()
      modifies this
      ensures Valid()
      ensures id !in old(docs) ==> r == Failure(NotFound) && docs == old(docs)
      ensures id in old(docs) && old(docs)[id].etag != ifMatch ==>
        r == Failure(PreconditionFailed) && docs == old(docs)
      ensures id in old(docs) && old(docs)[id].etag == ifMatch ==>
        && r == Success(old(docs)[id].(currentValue := value, etag := old(etagClock)))
        && docs == old(docs)[id := r.value]
    {
      if id !in docs {
        return Failure(NotFound);
      }
      if docs[id].etag != ifMatch {
        return Failure(PreconditionFailed);
      }
      var d := docs[id].(currentValue := value, etag := etagClock);
      docs := docs[id := d];
      etagClock := etagClock + 1;
      r := Success(d);
    }

    /** Another writer's successful increment of counter `id`. */
    method RivalIncrement(id: string)
      requires Valid()
      modifies this
      ensures Valid()
      ensures id !in old(docs) ==> docs == old(docs)
      ensures id in old(docs) ==>
        && docs == old(docs)[id := old(docs)[id].(currentValue := old(docs)[id].currentValue + 1, etag := old(etagClock))]
        && docs[id].etag != old(docs)[id].etag
    {
      if id in docs {
        docs := docs[id := docs[id].(currentValue := docs[id].currentValue + 1, etag := etagClock)];
        etagClock := etagClock + 1;
      }
    }

    /** Another writer deletes document `id`. */
    method RivalRemove(id: string)
      requires Valid()
      modifies this
      ensures Valid()
      ensures docs == old(docs) - {id}
    {
      docs := docs - {id};
    }
  }
}
