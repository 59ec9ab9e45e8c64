/**
 * The audit service's store: an append-only sequence of entries, each
 * stamped and hashed by the server, and the query over it (conjunctive
 * filter, newest first, skip and take).
 */
module AuditLedger {
  import opened Wrappers
  import opened Js
  import opened Nest
  import AuditRecord
  import Zod
  import AuditContract
  import Signing

  /** A stored row: the generated id, the instant of its timestamp, and the saved object. */
  datatype StoredEntry = StoredEntry(id: string, at: int, record: JsObject)

  const SaveFailedMessage: string := "Failed to create audit log entry."

  /** `sha256(JSON.stringify({ ...auditData, timestamp }))` with the server's timestamp. */
  function ServerHash(n: Natives, data: JsObject, now: int): string {
    n.sha256Hex(n.stringify(JObj(SetKey(data, "timestamp", JStr(n.isoString(now))))))
  }

  /** The properties of the AuditLog entity, the only keys `repository.create` copies into the row. */
  const AuditLogColumns: set<string> := {"id", "timestamp", "actorId", "actorType", "action", "targetId",
                                         "targetType", "correlationId", "metadata", "cryptographicHash"}

  /** The pairs of `obj` whose key is an AuditLog column, in their order. */
  function ColumnsOf(obj: JsObject): (r: JsObject)
    ensures forall k :: Lookup(r, k) == if k in AuditLogColumns then Lookup(obj, k) else None
    decreases |obj|
  {
    if |obj| == 0 then []
    else
      var rest := ColumnsOf(obj[..|obj| - 1]);
      var last := obj[|obj| - 1];
      if last.0 in AuditLogColumns then
        assert (rest + [last])[..|rest|] == rest;
        rest + [last]
      else rest
  }

  /**
   * The entry `createAuditLog` builds at time `now`: whatever timestamp or
   * hash the caller put in `data` is overridden by the server's own, and only
   * the entity's columns are kept, although the hash covers every key.
   */
  function Stamp(n: Natives, data: JsObject, now: int, id: string): (e: StoredEntry)
    ensures e.id == id && e.at == now
    ensures Lookup(e.record, "timestamp") == Some(JStr(n.isoString(now)))
    ensures Lookup(e.record, "cryptographicHash") == Some(JStr(ServerHash(n, data, now)))
    ensures forall k :: k != "timestamp" && k != "cryptographicHash" ==>
      Lookup(e.record, k) == if k in AuditLogColumns then Lookup(data, k) else None
  {
    var timestamp := n.isoString(now);
    var hashed := SetKey(data, "timestamp", JStr(timestamp));
    StoredEntry(id, now, ColumnsOf(SetKey(hashed, "cryptographicHash", JStr(ServerHash(n, data, now)))))
  }

  /**
   * A key outside the entity's columns is not stored, yet it is hashed: with
   * collision-free SHA-256 and an injective JSON.stringify, adding it changes
   * the stored hash and nothing else of the row, so the stored hash cannot be
   * recomputed from the stored row.
   */
  lemma NonColumnKeyHashedNotStored(n: Natives, data: JsObject, k: string, v: Json, now: int, id: string)
    requires Signing.ShaInjective(n) && Signing.StringifyInjective(n)
    requires k !in AuditLogColumns && Lookup(data, k) == None
    ensures Lookup(Stamp(n, SetKey(data, k, v), now, id).record, k) == None
    ensures forall c :: c != "cryptographicHash" ==>
      Lookup(Stamp(n, SetKey(data, k, v), now, id).record, c) == Lookup(Stamp(n, data, now, id).record, c)
    ensures ServerHash(n, SetKey(data, k, v), now) != ServerHash(n, data, now)
  {
    var data' := SetKey(data, k, v);
    var e', e := Stamp(n, data', now, id), Stamp(n, data, now, id);
    assert k != "timestamp" && k != "cryptographicHash" by {
      assert "timestamp" in AuditLogColumns && "cryptographicHash" in AuditLogColumns;
    }
    forall c | c != "cryptographicHash" ensures Lookup(e'.record, c) == Lookup(e.record, c) {
      if c != "timestamp" && c in AuditLogColumns {
        assert c != k;
      }
    }
    var ts := JStr(n.isoString(now));
    var withKey, without := SetKey(data', "timestamp", ts), SetKey(data, "timestamp", ts);
    assert Lookup(withKey, k) != Lookup(without, k);
  }

  /**
   * The caller's fields alone (no timestamp or hash key), stamped by the
   * server at the ISO timestamp a client used, get the hash that client
   * computed over them.
   */
  lemma ServerHashAgreesWithClient(n: Natives, a: AuditRecord.AuditData, now: int)
    ensures ServerHash(n, AuditRecord.ToObject(a), now) == AuditRecord.RecordHash(n, a, n.isoString(now))
  {
  }

  /**
   * The record a client actually sends carries its own "cryptographicHash"
   * key, which `{ ...auditData, timestamp }` keeps in the object the server
   * hashes; so, with collision-free SHA-256 and an injective JSON.stringify,
   * the server's hash of a sent record never equals the client's, even at the
   * same timestamp.
   */
  lemma SentRecordHashDiffers(n: Natives, a: AuditRecord.AuditData, now: int, clientHash: string)
    requires Signing.ShaInjective(n) && Signing.StringifyInjective(n)
    ensures ServerHash(n, AuditRecord.FullRecord(a, n.isoString(now), clientHash), now)
         != AuditRecord.RecordHash(n, a, n.isoString(now))
  {
    var iso := n.isoString(now);
    var sent := SetKey(AuditRecord.FullRecord(a, iso, clientHash), "timestamp", JStr(iso));
    var clients := AuditRecord.WithTimestamp(a, iso);
    AuditRecord.ToObjectKeys(a);
    assert Lookup(sent, "cryptographicHash") == Some(JStr(clientHash));
    assert Lookup(clients, "cryptographicHash") == None;
    assert JObj(sent) != JObj(clients);
  }

  class Ledger {
    var entries: seq<StoredEntry>

    constructor ()
      ensures entries == []
    {
      entries := [];
    }

    /**
     * `createAuditLog` at time `now`; `id` is the id the database generates
     * and `saveSucceeds` whether the save went through. The only change ever
     * made to the store is this append.
     */
    method CreateAuditLog(n: Natives, data: JsObject, now: int, id: string, saveSucceeds: bool)
      returns (r: Result<StoredEntry, HttpError>)
      modifies this
      ensures saveSucceeds ==> r == Success(Stamp(n, data, now, id)) && entries == old(entries) + [r.value]
      ensures !saveSucceeds ==> r == Failure(BadRequest(SaveFailedMessage)) && entries == old(entries)
    {
      var entry := Stamp(n, data, now, id);
      if saveSucceeds {
        entries := entries + [entry];
        r := Success(entry);
      } else {
        r := Failure(BadRequest(SaveFailedMessage));
      }
    }
  }

  /** The query parameters `getAuditLogs` reads. */
  datatype AuditQuery = AuditQuery(
    actorId: Option<string>, targetId: Option<string>, action: Option<string>, correlationId: Option<string>,
    startDate: Option<string>, endDate: Option<string>, limit: Option<nat>, offset: Option<nat>)

  /** A present (non-empty) filter value demands that column to equal it. */
  predicate FieldMatches(e: StoredEntry, column: string, filter: Option<string>) {
    Present(filter) ==> Lookup(e.record, column) == Some(JStr(filter.value))
  }

  /** Every present filter holds; the date bounds are inclusive. */
  predicate Matches(n: Natives, q: AuditQuery, e: StoredEntry) {
    && FieldMatches(e, "actorId", q.actorId)
    && FieldMatches(e, "targetId", q.targetId)
    && FieldMatches(e, "action", q.action)
    && FieldMatches(e, "correlationId", q.correlationId)
    && (Present(q.startDate) ==> n.instantOf(q.startDate.value) <= e.at)
    && (Present(q.endDate) ==> e.at <= n.instantOf(q.endDate.value))
  }

  /** The entries that satisfy the query's filters, in store order. */
  function Filter(n: Natives, q: AuditQuery, s: seq<StoredEntry>): (r: seq<StoredEntry>)
    ensures forall e :: e in r <==> e in s && Matches(n, q, e)
    ensures multiset(r) <= multiset(s)
    ensures |r| <= |s|
  {
    if |s| == 0 then []
    else
      var rest := Filter(n, q, s[1..]);
      assert s == [s[0]] + s[1..];
      if Matches(n, q, s[0]) then [s[0]] + rest else rest
  }

  /** Newest first: timestamps never increase along the sequence. */
  predicate SortedDesc(s: seq<StoredEntry>) {
    forall i, j :: 0 <= i < j < |s| ==> s[i].at >= s[j].at
  }

  /** An entry no older than everything after it extends a sorted sequence. */
  lemma SortedCons(h: StoredEntry, t: seq<StoredEntry>)
    requires SortedDesc(t)
    requires forall y :: y in t ==> y.at <= h.at
    ensures SortedDesc([h] + t)
  {
    var r := [h] + t;
    forall i, j | 0 <= i < j < |r| ensures r[i].at >= r[j].at {
      if i > 0 {
        assert r[i] == t[i - 1] && r[j] == t[j - 1];
      } else {
        assert r[j] == t[j - 1];
        assert r[j] in t;
      }
    }
  }

  /** Inserts `x` before the first entry not newer than it. */
  function Insert(x: StoredEntry, s: seq<StoredEntry>): seq<StoredEntry> {
    if |s| == 0 then [x]
    else if s[0].at <= x.at then [x] + s
    else [s[0]] + Insert(x, s[1..])
  }

  lemma {:induction false} InsertMembers(x: StoredEntry, s: seq<StoredEntry>)
    ensures multiset(Insert(x, s)) == multiset(s) + multiset{x}
    ensures forall y :: y in Insert(x, s) <==> y == x || y in s
  {
    if |s| > 0 && s[0].at > x.at {
      InsertMembers(x, s[1..]);
      assert s == [s[0]] + s[1..];
    }
  }

  /** Inserting into a newest-first sequence keeps it newest first. */
  lemma {:induction false} InsertSorted(x: StoredEntry, s: seq<StoredEntry>)
    requires SortedDesc(s)
    ensures SortedDesc(Insert(x, s))
  {
    if |s| == 0 {
    } else if s[0].at <= x.at {
      SortedCons(x, s);
    } else {
      var rest := Insert(x, s[1..]);
      InsertSorted(x, s[1..]);
      InsertMembers(x, s[1..]);
      forall y | y in rest ensures y.at <= s[0].at {
        if y != x {
          var k :| 0 <= k < |s[1..]| && s[1..][k] == y;
          assert s[k + 1] == y;
        }
      }
      SortedCons(s[0], rest);
    }
  }

  /** `orderBy('audit_log.timestamp', 'DESC')`; entries with equal timestamps keep store order. */
  function SortByTimestampDesc(s: seq<StoredEntry>): (r: seq<StoredEntry>)
    ensures SortedDesc(r)
    ensures multiset(r) == multiset(s)
    ensures forall e :: e in r <==> e in s
  {
    if |s| == 0 then []
    else
      var sorted := SortByTimestampDesc(s[1..]);
      InsertMembers(s[0], sorted);
      InsertSorted(s[0], sorted);
      assert s == [s[0]] + s[1..];
      Insert(s[0], sorted)
  }

  /** `take(limit || 50)`. */
  function EffectiveLimit(q: AuditQuery): (l: nat)
    ensures l >= 1
    ensures q.limit.Some? && q.limit.value > 0 ==> l == q.limit.value
  {
    if q.limit.None? || q.limit.value == 0 then 50 else q.limit.value
  }

  /** `skip(offset || 0)`. */
  function EffectiveOffset(q: AuditQuery): nat {
    if q.offset.None? then 0 else q.offset.value
  }

  function Min(a: int, b: int): int {
    if a <= b then a else b
  }

  /** Skips `offset` entries and takes at most `limit` of the rest. */
  function Page(s: seq<StoredEntry>, offset: nat, limit: nat): (r: seq<StoredEntry>)
    ensures |r| == if offset >= |s| then 0 else Min(limit, |s| - offset)
    ensures forall i :: 0 <= i < |r| ==> r[i] == s[offset + i]
    ensures forall e :: e in r ==> e in s
  {
    if offset >= |s| then [] else s[offset..Min(offset + limit, |s|)]
  }

  lemma PageSorted(s: seq<StoredEntry>, offset: nat, limit: nat)
    requires SortedDesc(s)
    ensures SortedDesc(Page(s, offset, limit))
  {
    var r := Page(s, offset, limit);
    forall i, j | 0 <= i < j < |r| ensures r[i].at >= r[j].at {
      assert r[i] == s[offset + i] && r[j] == s[offset + j];
    }
  }

  /** `getAuditLogs(query)` over the stored entries. */
  function GetAuditLogs(n: Natives, q: AuditQuery, entries: seq<StoredEntry>): (r: seq<StoredEntry>)
    ensures forall e :: e in r ==> e in entries && Matches(n, q, e)
    ensures SortedDesc(r)
    ensures |r| <= EffectiveLimit(q)
  {
    var ranked := SortByTimestampDesc(Filter(n, q, entries));
    var r := Page(ranked, EffectiveOffset(q), EffectiveLimit(q));
    PageSorted(ranked, EffectiveOffset(q), EffectiveLimit(q));
    r
  }

  /** The number of matching entries the query sees. */
  function MatchCount(n: Natives, q: AuditQuery, entries: seq<StoredEntry>): nat {
    |Filter(n, q, entries)|
  }

  /** A page holds `limit` entries unless the matches run out after `offset`. */
  lemma GetAuditLogsCount(n: Natives, q: AuditQuery, entries: seq<StoredEntry>)
    ensures var c := MatchCount(n, q, entries);
      |GetAuditLogs(n, q, entries)| == if EffectiveOffset(q) >= c then 0 else Min(EffectiveLimit(q), c - EffectiveOffset(q))
  {
    var filtered := Filter(n, q, entries);
    var ranked := SortByTimestampDesc(filtered);
    assert |ranked| == |multiset(ranked)| == |multiset(filtered)| == |filtered|;
  }

  /**
   * `r` is the window of `ranked` that starts after exactly `offset` entries:
   * its length is what remains, at most `limit`; its entries are the next
   * ones in order; every skipped entry is no older than its first entry, and
   * every later entry no newer than its last.
   */
  predicate Window(ranked: seq<StoredEntry>, offset: nat, limit: nat, r: seq<StoredEntry>) {
    && |r| == (if offset >= |ranked| then 0 else Min(limit, |ranked| - offset))
    && (forall i :: 0 <= i < |r| ==> offset + i < |ranked| && r[i] == ranked[offset + i])
    && (|r| > 0 ==> forall i :: 0 <= i < offset && i < |ranked| ==> ranked[i].at >= r[0].at)
    && (|r| > 0 ==> forall i :: offset + |r| <= i < |ranked| ==> ranked[i].at <= r[|r| - 1].at)
  }

  /** A page of a newest-first sequence is its window. */
  lemma PageWindow(s: seq<StoredEntry>, offset: nat, limit: nat)
    requires SortedDesc(s)
    ensures Window(s, offset, limit, Page(s, offset, limit))
  {
    var r := Page(s, offset, limit);
    if |r| > 0 {
      assert r[0] == s[offset];
      assert r[|r| - 1] == s[offset + |r| - 1];
    }
  }

  /**
   * Which matches a page holds: of all matching entries ranked newest first,
   * the window after exactly `offset || 0` of them, of at most `limit || 50`.
   */
  lemma GetAuditLogsWindow(n: Natives, q: AuditQuery, entries: seq<StoredEntry>)
    ensures |SortByTimestampDesc(Filter(n, q, entries))| == MatchCount(n, q, entries)
    ensures Window(SortByTimestampDesc(Filter(n, q, entries)), EffectiveOffset(q), EffectiveLimit(q), GetAuditLogs(n, q, entries))
  {
    var filtered := Filter(n, q, entries);
    var ranked := SortByTimestampDesc(filtered);
    assert |ranked| == |multiset(ranked)| == |multiset(filtered)| == |filtered|;
    PageWindow(ranked, EffectiveOffset(q), EffectiveLimit(q));
  }

  /** With no offset and few enough matches, every matching entry is returned. */
  lemma AllMatchesWhenFits(n: Natives, q: AuditQuery, entries: seq<StoredEntry>, e: StoredEntry)
    requires EffectiveOffset(q) == 0 && MatchCount(n, q, entries) <= EffectiveLimit(q)
    requires e in entries && Matches(n, q, e)
    ensures e in GetAuditLogs(n, q, entries)
  {
    var filtered := Filter(n, q, entries);
    var ranked := SortByTimestampDesc(filtered);
    assert |ranked| == |multiset(ranked)| == |multiset(filtered)| == |filtered|;
    var r := Page(ranked, 0, EffectiveLimit(q));
    assert r == ranked;
  }

  // ---- The validated query ----

  /** A string parameter of the validated query. */
  function StringParam(o: Option<Json>): (r: Option<string>)
    ensures r.Some? <==> o.Some? && o.value.JStr?
    ensures r.Some? ==> o == Some(JStr(r.value))
  {
    if o.Some? && o.value.JStr? then Some(o.value.s) else None
  }

  /** A whole-number parameter of the validated query. */
  function WholeParam(o: Option<Json>): (r: Option<nat>)
    ensures r.Some? <==> o.Some? && o.value.JNum? && o.value.n >= 0.0 && o.value.n == o.value.n.Floor as real
    ensures r.Some? ==> o == Some(JNum(r.value as real))
  {
    if o.Some? && o.value.JNum? && o.value.n >= 0.0 && o.value.n == o.value.n.Floor as real then Some(o.value.n.Floor as nat)
    else None
  }

  /** The query object the controller hands to the service: the output of validation. */
  function QueryOf(out: JsObject): AuditQuery {
    AuditQuery(StringParam(Lookup(out, "actorId")), StringParam(Lookup(out, "targetId")),
               StringParam(Lookup(out, "action")), StringParam(Lookup(out, "correlationId")),
               StringParam(Lookup(out, "startDate")), StringParam(Lookup(out, "endDate")),
               WholeParam(Lookup(out, "limit")), WholeParam(Lookup(out, "offset")))
  }

  /**
   * Behind validation, a page never holds more than 100 entries, and a
   * request without a limit gets pages of 50.
   */
  lemma ValidatedPageBound(f: Formats, n: Natives, v: Json, entries: seq<StoredEntry>)
    requires Zod.Parse(f, AuditContract.GetAuditLogRequestSchema, Some(v)).Success?
    ensures v.JObj?
    ensures var q := QueryOf(Zod.Parse(f, AuditContract.GetAuditLogRequestSchema, Some(v)).value.value.fields);
      && 1 <= EffectiveLimit(q) <= 100
      && |GetAuditLogs(n, q, entries)| <= 100
      && (Lookup(v.fields, "limit").None? ==> EffectiveLimit(q) == 50)
  {
    AuditContract.GetAuditLogRequestDefaults(f, v);
    var out := Zod.Parse(f, AuditContract.GetAuditLogRequestSchema, Some(v)).value.value.fields;
    var limit := Lookup(out, "limit");
    assert limit.value.n <= 100.0;
    assert WholeParam(limit).Some?;
  }

  /**
   * A limit given as text, as a query string carries it, fails validation:
   * the schema asks for a number and does not convert.
   */
  lemma TextLimitRejected(f: Formats, v: Json, text: string)
    requires v.JObj? && Lookup(v.fields, "limit") == Some(JStr(text))
    ensures Zod.Parse(f, AuditContract.GetAuditLogRequestSchema, Some(v)).Failure?
  {
    AuditContract.GetAuditLogRequestAccepts(f, v);
  }
}
