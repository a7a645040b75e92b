/**
 * The short-link record of Backend/Schemas/MongoDB.js: the embedded click
 * event, the record with its defaults and required fields, the unique index on
 * `shortId`, and the TTL index on `expiresAt`. Timestamps are integers (epoch
 * milliseconds) that the caller supplies in place of `Date.now`.
 */
module UrlSchema {
  import opened Wrappers

  type Timestamp = int

  /** `expireAfterSeconds: 0` on the `expiresAt` index. */
  const ExpireAfterSeconds: nat := 0

  /** One click. `_id: false`: an event has no identity beyond its field values. */
  datatype ClickEvent = ClickEvent(
    time: Timestamp,
    ip: Option<string>,
    referrer: Option<string>,
    userAgent: Option<string>,
    country: Option<string>,
    city: Option<string>)

  /** A click event as it is built: `time` defaults to the creation instant `now`. */
  function NewClickEvent(now: Timestamp, time: Option<Timestamp>, ip: Option<string>, referrer: Option<string>,
                         userAgent: Option<string>, country: Option<string>, city: Option<string>): (e: ClickEvent)
    ensures time.Some? ==> e.time == time.value
    ensures time.None? ==> e.time == now
    ensures e.ip == ip && e.referrer == referrer && e.userAgent == userAgent
    ensures e.country == country && e.city == city
  {
    ClickEvent(if time.Some? then time.value else now, ip, referrer, userAgent, country, city)
  }

  /** A stored short link (`versionKey: false`: no version field). */
  datatype ShortLinkRecord = ShortLinkRecord(
    originalUrl: string,
    shortId: string,
    createdAt: Timestamp,
    expiresAt: Option<Timestamp>,
    isActive: bool,
    analyticsEnabled: bool,
    clickCount: int,
    events: seq<ClickEvent>)

  /** The fields handed to `new Url({...})`; `None` is a field left out. */
  datatype RecordInput = RecordInput(
    originalUrl: Option<string>,
    shortId: Option<string>,
    createdAt: Option<Timestamp>,
    expiresAt: Option<Timestamp>,
    isActive: Option<bool>,
    analyticsEnabled: Option<bool>,
    clickCount: Option<int>,
    events: Option<seq<ClickEvent>>)

  /** Only the two required fields given, as a creating caller would. */
  function MinimalInput(originalUrl: string, shortId: string): RecordInput {
    RecordInput(Some(originalUrl), Some(shortId), None, None, None, None, None, None)
  }

  datatype SchemaError =
    | ValidationError(missingPaths: set<string>)   // `required: true` failed
    | DuplicateKey(shortId: string)                 // the unique index on shortId refused the insert

  /** Mongoose's `required` check on a String path: absent, null and "" all fail. */
  predicate RequiredPresent(v: Option<string>) {
    v.Some? && v.value != ""
  }

  function MissingPaths(input: RecordInput): (paths: set<string>)
    ensures paths <= {"originalUrl", "shortId"}
    ensures "originalUrl" in paths <==> !RequiredPresent(input.originalUrl)
    ensures "shortId" in paths <==> !RequiredPresent(input.shortId)
  {
    (if RequiredPresent(input.originalUrl) then {} else {"originalUrl"})
    + (if RequiredPresent(input.shortId) then {} else {"shortId"})
  }

  function OrElse<T>(v: Option<T>, default: T): T {
    if v.Some? then v.value else default
  }

  /** Building and validating a record: defaults applied, required fields checked. */
  function NewRecord(input: RecordInput, now: Timestamp): (r: Result<ShortLinkRecord, SchemaError>)
    ensures r.Success? <==> RequiredPresent(input.originalUrl) && RequiredPresent(input.shortId)
    ensures r.Failure? ==> r.error == ValidationError(MissingPaths(input)) && r.error.missingPaths != {}
    ensures r.Success? ==> r.value.originalUrl == input.originalUrl.value && r.value.shortId == input.shortId.value
    // Each optional field is kept when given and otherwise takes the schema's default.
    ensures r.Success? ==> r.value.createdAt == (if input.createdAt.Some? then input.createdAt.value else now)
    ensures r.Success? ==> r.value.expiresAt == input.expiresAt
    ensures r.Success? ==> r.value.isActive == (input.isActive.None? || input.isActive.value)
    ensures r.Success? ==> r.value.analyticsEnabled == (input.analyticsEnabled.None? || input.analyticsEnabled.value)
    ensures r.Success? ==> r.value.clickCount == (if input.clickCount.Some? then input.clickCount.value else 0)
    ensures r.Success? ==> r.value.events == (if input.events.Some? then input.events.value else [])
  {
    if MissingPaths(input) != {} then
      Failure(ValidationError(MissingPaths(input)))
    else
      Success(ShortLinkRecord(
        input.originalUrl.value,
        input.shortId.value,
        OrElse(input.createdAt, now),
        input.expiresAt,
        OrElse(input.isActive, true),
        OrElse(input.analyticsEnabled, true),
        OrElse(input.clickCount, 0),
        OrElse(input.events, [])))
  }

  /** A record created with only its required fields has every default. */
  lemma FreshRecordDefaults(originalUrl: string, shortId: string, now: Timestamp)
    requires originalUrl != "" && shortId != ""
    ensures NewRecord(MinimalInput(originalUrl, shortId), now)
         == Success(ShortLinkRecord(originalUrl, shortId, now, None, true, true, 0, []))
  {
  }

  /** A record without `originalUrl` or `shortId` cannot be built; the error names what is missing. */
  lemma RequiredFieldsEnforced(input: RecordInput, now: Timestamp)
    requires input.originalUrl.None? || input.shortId == Some("")
    ensures NewRecord(input, now).Failure?
    ensures input.originalUrl.None? ==> "originalUrl" in NewRecord(input, now).error.missingPaths
    ensures input.shortId == Some("") ==> "shortId" in NewRecord(input, now).error.missingPaths
  {
  }

  // ---------------------------------------------------------------------------
  // Expiry: the TTL index `{ expiresAt: 1 }` with `expireAfterSeconds: 0`.

  /** The TTL monitor may delete `rec` at instant `now`; without `expiresAt` it never may. */
  predicate Expired(rec: ShortLinkRecord, now: Timestamp): (expired: bool)
    ensures expired <==> rec.expiresAt.Some? && now >= rec.expiresAt.value
  {
    rec.expiresAt.Some? && now >= rec.expiresAt.value + ExpireAfterSeconds * 1000
  }

  /** With a zero offset a record expires exactly at `expiresAt`. */
  lemma ExpiresExactlyAtDeadline(rec: ShortLinkRecord, now: Timestamp)
    ensures rec.expiresAt.None? ==> !Expired(rec, now)
    ensures rec.expiresAt.Some? ==> (Expired(rec, now) <==> now >= rec.expiresAt.value)
  {
  }

  /** Once expired, a record stays expired. */
  lemma ExpiryIsPermanent(rec: ShortLinkRecord, t0: Timestamp, t1: Timestamp)
    requires Expired(rec, t0) && t0 <= t1
    ensures Expired(rec, t1)
  {
  }

  /** A record created without `expiresAt` gets the null default and so never expires. */
  lemma DefaultRecordNeverExpires(input: RecordInput, now: Timestamp, later: Timestamp)
    requires input.expiresAt.None? && NewRecord(input, now).Success?
    ensures NewRecord(input, now).value.expiresAt.None?
    ensures !Expired(NewRecord(input, now).value, later)
  {
  }

  // ---------------------------------------------------------------------------
  // The collection: a sequence of records, unique on `shortId`.

  function ShortIds(store: seq<ShortLinkRecord>): set<string> {
    set i | 0 <= i < |store| :: store[i].shortId
  }

  /** No two records share a `shortId`; then every record has an id of its own. */
  predicate UniqueShortIds(store: seq<ShortLinkRecord>): (unique: bool)
    ensures unique ==> |ShortIds(store)| == |store|
  {
    DistinctIdsCount(store);
    forall i, j :: 0 <= i < j < |store| ==> store[i].shortId != store[j].shortId
  }

  lemma {:induction false} DistinctIdsCount(store: seq<ShortLinkRecord>)
    ensures (forall i, j :: 0 <= i < j < |store| ==> store[i].shortId != store[j].shortId)
            ==> |ShortIds(store)| == |store|
  {
    if |store| > 0 && forall i, j :: 0 <= i < j < |store| ==> store[i].shortId != store[j].shortId {
      var rest := store[1..];
      assert forall i, j :: 0 <= i < j < |rest| ==> rest[i].shortId != rest[j].shortId by {
        forall i, j | 0 <= i < j < |rest| ensures rest[i].shortId != rest[j].shortId {
          assert rest[i] == store[i + 1] && rest[j] == store[j + 1];
        }
      }
      DistinctIdsCount(rest);
      assert ShortIds(store) == {store[0].shortId} + ShortIds(rest) by {
        forall x | x in ShortIds(store) ensures x in {store[0].shortId} + ShortIds(rest) {
          var i :| 0 <= i < |store| && store[i].shortId == x;
          if i > 0 { assert rest[i - 1] == store[i]; }
        }
        forall x | x in ShortIds(rest) ensures x in ShortIds(store) {
          var i :| 0 <= i < |rest| && rest[i].shortId == x;
          assert store[i + 1] == rest[i];
        }
      }
      assert store[0].shortId !in ShortIds(rest);
    }
  }

  /** `findOne({ shortId: id })`: the first record with that id. */
  function FindByShortId(store: seq<ShortLinkRecord>, id: string): (r: Option<ShortLinkRecord>)
    ensures r.Some? ==> r.value in store && r.value.shortId == id
    ensures r.None? <==> id !in ShortIds(store)
  {
    if |store| == 0 then None
    else if store[0].shortId == id then Some(store[0])
    else
      var rest := FindByShortId(store[1..], id);
      assert ShortIds(store) == {store[0].shortId} + ShortIds(store[1..]) by {
        forall x | x in ShortIds(store) ensures x in {store[0].shortId} + ShortIds(store[1..]) {
          var i :| 0 <= i < |store| && store[i].shortId == x;
          if i > 0 { assert store[1..][i - 1] == store[i]; }
        }
      }
      rest
  }

  /** Saving a record: the unique index refuses a second record with the same `shortId`. */
  function Insert(store: seq<ShortLinkRecord>, rec: ShortLinkRecord): (r: Result<seq<ShortLinkRecord>, SchemaError>)
    ensures r.Failure? <==> rec.shortId in ShortIds(store)
    ensures r.Failure? ==> r.error == DuplicateKey(rec.shortId)
    ensures r.Success? ==> r.value == store + [rec]
  {
    if rec.shortId in ShortIds(store) then Failure(DuplicateKey(rec.shortId)) else Success(store + [rec])
  }

  /** Insertion keeps `shortId` unique. */
  lemma InsertPreservesUnique(store: seq<ShortLinkRecord>, rec: ShortLinkRecord)
    requires UniqueShortIds(store)
    ensures Insert(store, rec).Success? ==> UniqueShortIds(Insert(store, rec).value)
  {
    if Insert(store, rec).Success? {
      var s := store + [rec];
      forall i, j | 0 <= i < j < |s| ensures s[i].shortId != s[j].shortId {
        if j == |store| {
          assert s[i].shortId in ShortIds(store);
        }
      }
    }
  }

  /** Every record of a unique store is found by its own id. */
  lemma {:induction false} FindInUniqueStore(store: seq<ShortLinkRecord>, i: nat)
    requires UniqueShortIds(store) && i < |store|
    ensures FindByShortId(store, store[i].shortId) == Some(store[i])
  {
    if i > 0 {
      assert store[0].shortId != store[i].shortId;
      assert store[1..][i - 1] == store[i];
      FindInUniqueStore(store[1..], i - 1);
    }
  }

  /** After a successful insert, the new record is what a lookup by its id returns. */
  lemma InsertThenFind(store: seq<ShortLinkRecord>, rec: ShortLinkRecord)
    requires UniqueShortIds(store) && Insert(store, rec).Success?
    ensures FindByShortId(Insert(store, rec).value, rec.shortId) == Some(rec)
  {
    InsertPreservesUnique(store, rec);
    FindInUniqueStore(store + [rec], |store|);
  }

  /** The collection after the TTL monitor has deleted what is expired at `now`. */
  function PurgeExpired(store: seq<ShortLinkRecord>, now: Timestamp): (r: seq<ShortLinkRecord>)
    ensures |r| <= |store|
    ensures forall x :: x in r <==> x in store && !Expired(x, now)
  {
    if |store| == 0 then []
    else
      var rest := PurgeExpired(store[1..], now);
      assert forall x :: x in store <==> x == store[0] || x in store[1..];
      if Expired(store[0], now) then rest else [store[0]] + rest
  }

  /** Removing expired records keeps `shortId` unique. */
  lemma {:induction false} PurgePreservesUnique(store: seq<ShortLinkRecord>, now: Timestamp)
    requires UniqueShortIds(store)
    ensures UniqueShortIds(PurgeExpired(store, now))
  {
    if |store| > 0 {
      var rest := store[1..];
      PurgePreservesUnique(rest, now);
      if !Expired(store[0], now) {
        var p := PurgeExpired(rest, now);
        var s := [store[0]] + p;
        forall i, j | 0 <= i < j < |s| ensures s[i].shortId != s[j].shortId {
          if i == 0 {
            assert s[j] == p[j - 1] && p[j - 1] in rest;
            var k :| 0 <= k < |rest| && rest[k] == s[j];
            assert store[k + 1] == s[j];
          } else {
            assert s[i] == p[i - 1] && s[j] == p[j - 1];
          }
        }
      }
    }
  }

  /** Records without `expiresAt` survive every purge. */
  lemma PurgeKeepsUnexpiring(store: seq<ShortLinkRecord>, now: Timestamp, rec: ShortLinkRecord)
    requires rec in store && rec.expiresAt.None?
    ensures rec in PurgeExpired(store, now)
  {
  }
}
