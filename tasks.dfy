/** The background tasks: the task queue as an outbox of dispatched messages,
    and `track_product_retrieve`, which enriches visit metadata with a geo
    lookup and records the visit. */
module Tasks {
  import opened Wrappers
  import opened Json
  import Catalog

  const DefaultCountry: string := "México"
  const DefaultCity: string := "Ciudad de México"

  /** A message handed to the task queue with `.delay(...)`. */
  datatype Task =
    | TrackProductRetrieve(productId: nat, metadata: Object)
    | SendProductUpdateEmail(subject: string, content: string, toEmails: seq<string>)

  /** The task queue, seen from the code that dispatches to it: every
      `.delay(...)` appends one message. Delivery happens elsewhere. */
  class Outbox {
    var sent: seq<Task>

    constructor ()
      ensures sent == []
    {
      sent := [];
    }

    method Delay(t: Task)
      modifies this
      ensures sent == old(sent) + [t]
    {
      sent := sent + [t];
    }
  }

  /** What a city lookup yields: a response whose country and city names may
      each be missing, or an exception. */
  datatype GeoAnswer = Located(countryName: Option<string>, cityName: Option<string>) | LookupFailed

  /** The geo database file: whether it can be opened, and the answer its city
      lookup gives for each address text. */
  datatype GeoDatabase = GeoDatabase(readable: bool, city: string -> GeoAnswer)

  /** What `reader.city(ip)` yields: the database's answer for a string
      address on an open reader; an exception for anything else (a missing or
      non-string address, or a closed reader). */
  function CityLookup(db: string -> GeoAnswer, isOpen: bool, ip: Option<Value>): GeoAnswer {
    if isOpen && ip.Some? && ip.value.Str? then db(ip.value.text) else LookupFailed
  }

  /** A reader handle on the geo database. */
  class GeoReader {
    const db: string -> GeoAnswer
    var isOpen: bool
    /** The addresses `city` was called with, in order. */
    var lookups: seq<Option<Value>>
    /** How many times `close` was called. */
    var closes: nat

    constructor (db: string -> GeoAnswer)
      ensures this.db == db && isOpen && lookups == [] && closes == 0
    {
      this.db := db;
      isOpen, lookups, closes := true, [], 0;
    }

    method City(ip: Option<Value>) returns (answer: GeoAnswer)
      modifies this`lookups
      ensures lookups == old(lookups) + [ip]
      ensures answer == CityLookup(db, isOpen, ip)
    {
      lookups := lookups + [ip];
      answer := CityLookup(db, isOpen, ip);
    }

    method Close()
      modifies this`isOpen, this`closes
      ensures !isOpen && closes == old(closes) + 1
    {
      isOpen, closes := false, closes + 1;
    }
  }

  /** Python's `name or default` for an optional name: a missing or empty
      name gives the default. */
  function OrDefault(name: Option<string>, default: string): string {
    if name.Some? && name.value != "" then name.value else default
  }

  /** The `country` and `city` entries the task writes for one lookup outcome. */
  function GeoFields(answer: GeoAnswer): (fields: Object)
    ensures fields.Keys == {"country", "city"}
    ensures fields["country"].Str? && fields["country"].text != ""
    ensures fields["city"].Str? && fields["city"].text != ""
    ensures answer.LookupFailed? ==> fields["country"] == Str(DefaultCountry) && fields["city"] == Str(DefaultCity)
    ensures answer.Located? && answer.countryName.Some? && answer.countryName.value != "" ==>
      fields["country"] == Str(answer.countryName.value)
    ensures answer.Located? && answer.cityName.Some? && answer.cityName.value != "" ==>
      fields["city"] == Str(answer.cityName.value)
    ensures answer.Located? && (answer.countryName.None? || answer.countryName.value == "") ==>
      fields["country"] == Str(DefaultCountry)
    ensures answer.Located? && (answer.cityName.None? || answer.cityName.value == "") ==>
      fields["city"] == Str(DefaultCity)
  {
    match answer
    case Located(country, city) =>
      map["country" := Str(OrDefault(country, DefaultCountry)), "city" := Str(OrDefault(city, DefaultCity))]
    case LookupFailed =>
      map["country" := Str(DefaultCountry), "city" := Str(DefaultCity)]
  }

  /** The metadata after enrichment: `country` and `city` added or overwritten
      with non-empty names, every other entry as it was. */
  function Enriched(m: Object, answer: GeoAnswer): (r: Object)
    ensures r.Keys == m.Keys + {"country", "city"}
    ensures forall k :: k in m && k != "country" && k != "city" ==> r[k] == m[k]
    ensures r["country"].Str? && r["country"].text != "" && r["city"].Str? && r["city"].text != ""
    ensures answer.LookupFailed? ==> r["country"] == Str(DefaultCountry) && r["city"] == Str(DefaultCity)
  {
    m + GeoFields(answer)
  }

  /** How a task run ended: normally (including the silent no-op), or with an
      exception that escapes to the task runner. */
  datatype TaskOutcome = Completed | ReaderUnavailable

  /** `track_product_retrieve`. A missing product is a silent no-op. Otherwise
      a reader is opened on the database, one city lookup is made with the
      metadata's `ip`, the metadata dictionary is enriched in place (defaults
      on a failed lookup), the reader is closed, and one visit record holding
      the enriched metadata is added. Opening the database is not guarded: if
      it fails the exception escapes and nothing is recorded. */
  method TrackProductRetrieve(store: Catalog.Store, productId: nat, metadata: Dict, db: GeoDatabase)
    returns (outcome: TaskOutcome, ghost reader: GeoReader?)
    requires store.Valid()
    modifies store`visits, metadata
    ensures store.Valid()
    ensures store.brands == old(store.brands) && store.products == old(store.products)
    ensures store.ProductById(productId).None? ==>
      outcome == Completed && reader == null
      && store.visits == old(store.visits) && metadata.entries == old(metadata.entries)
    ensures store.ProductById(productId).Some? && !db.readable ==>
      outcome == ReaderUnavailable && reader == null
      && store.visits == old(store.visits) && metadata.entries == old(metadata.entries)
    ensures store.ProductById(productId).Some? && db.readable ==>
      && outcome == Completed
      && reader != null && fresh(reader)
      && reader.lookups == [old(metadata.Get("ip"))]
      && !reader.isOpen && reader.closes == 1
      && metadata.entries == Enriched(old(metadata.entries), CityLookup(db.city, true, old(metadata.Get("ip"))))
      && store.visits == old(store.visits) + [Catalog.VisitRecord(productId, metadata.entries)]
  {
    reader := null;
    var product := store.ProductById(productId);
    if product.None? {
      return Completed, null;
    }
    if !db.readable {
      return ReaderUnavailable, null;
    }
    var r := new GeoReader(db.city);
    var ip := metadata.Get("ip");
    var answer := r.City(ip);
    metadata.Update(GeoFields(answer));
    r.Close();
    store.AddVisit(Catalog.VisitRecord(product.value.id, metadata.entries));
    outcome, reader := Completed, r;
  }

  /** Tracking is not idempotent: two runs for the same existing product add
      two visit records. */
  method TrackTwice(store: Catalog.Store, productId: nat, metadata: Dict, db: GeoDatabase)
    requires store.Valid() && store.ProductById(productId).Some? && db.readable
    modifies store`visits, metadata
    ensures |store.visits| == |old(store.visits)| + 2
    ensures store.visits[|store.visits| - 1].productId == store.visits[|store.visits| - 2].productId == productId
  {
    var first, _ := TrackProductRetrieve(store, productId, metadata, db);
    var second, _ := TrackProductRetrieve(store, productId, metadata, db);
  }
}
