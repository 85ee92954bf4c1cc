/** `CfDnsHelper.UpsertRecord`: publish a TXT record by name, updating the
    first record the provider lists under that name or creating one. */
module CfDnsHelper {
  import opened Wrappers
  import opened Cloudflare

  /** TTL, in seconds, of every record the job writes. */
  const RecordTtl := 120

  /** The body the upsert sends: a TXT record, TTL 120, not proxied. */
  function TxtRecord(recordName: string, recordValue: string): DnsRecord
  {
    DnsRecord(TXT, recordName, recordValue, RecordTtl, false)
  }

  /** A zone's records after an upsert, the provider's next id, and the
      record the provider returned. */
  datatype Upserted = Upserted(records: seq<DnsRecordResult>, nextId: RecordId, result: DnsRecordResult)

  /** What an upsert does to the record list of one zone. */
  function Upsert(records: seq<DnsRecordResult>, nextId: RecordId, recordName: string, recordValue: string): Upserted
  {
    var body := TxtRecord(recordName, recordValue);
    var found := FindByName(records, recordName);
    if found != [] then
      Upserted(WithUpdated(records, found[0].id, body), nextId, DnsRecordResult(found[0].id, body))
    else
      Upserted(records + [DnsRecordResult(nextId, body)], nextId + 1, DnsRecordResult(nextId, body))
  }

  /** `UpsertRecord(zoneId, recordName, recordValue)`. A failing provider
      call (here: an unknown zone) propagates as the failure. */
  method UpsertRecord(client: CloudflareDnsClient, zoneId: string, recordName: string, recordValue: string)
    returns (r: Result<DnsRecordResult, ApiError>)
    requires client.Valid()
    modifies client
    ensures client.Valid()
    ensures zoneId !in old(client.zones) ==>
      r == Failure(ZoneNotFound) && client.zones == old(client.zones) && client.nextId == old(client.nextId)
    ensures zoneId in old(client.zones) ==>
      var u := Upsert(old(client.zones[zoneId]), old(client.nextId), recordName, recordValue);
      r == Success(u.result) && client.zones == old(client.zones)[zoneId := u.records] && client.nextId == u.nextId
  {
    var record := TxtRecord(recordName, recordValue);
    var lookup := client.FindByNameAsync(zoneId, recordName);
    if lookup.Failure? {
      return Failure(lookup.error);
    }
    var found: Option<DnsRecordResult> := if lookup.value != [] then Some(lookup.value[0]) else None;
    if found.Some? {
      ghost var records := client.zones[zoneId];
      FindByNameExact(records, recordName);
      assert found.value in records;
      ghost var k :| 0 <= k < |records| && records[k] == found.value;
      assert HasId(records, found.value.id);
      r := client.UpdateAsync(zoneId, found.value.id, record);
    } else {
      r := client.CreateAsync(zoneId, record);
    }
  }

  // ---------------------------------------------------------------------
  // Lookup by name across the two provider writes

  lemma {:induction false} FindByNameAppend(records: seq<DnsRecordResult>, r: DnsRecordResult, name: string)
    ensures FindByName(records + [r], name) == FindByName(records, name) + (if r.record.name == name then [r] else [])
    decreases |records|
  {
    if records != [] {
      assert (records + [r])[1..] == records[1..] + [r];
      FindByNameAppend(records[1..], r, name);
    }
  }

  /** Updating a record of that name to a body of the same name commutes with the lookup. */
  lemma {:induction false} FindByNameUpdated(records: seq<DnsRecordResult>, id: RecordId, body: DnsRecord, name: string)
    requires body.name == name
    requires forall i :: 0 <= i < |records| && records[i].id == id ==> records[i].record.name == name
    ensures FindByName(WithUpdated(records, id, body), name) == WithUpdated(FindByName(records, name), id, body)
    decreases |records|
  {
    if records != [] {
      var updated := WithUpdated(records, id, body);
      assert updated[1..] == WithUpdated(records[1..], id, body);
      FindByNameUpdated(records[1..], id, body, name);
      var head := if records[0].record.name == name then [records[0]] else [];
      assert FindByName(records, name) == head + FindByName(records[1..], name);
      WithUpdatedConcat(head, FindByName(records[1..], name), id, body);
    }
  }

  lemma {:induction false} WithUpdatedConcat(s: seq<DnsRecordResult>, t: seq<DnsRecordResult>, id: RecordId, body: DnsRecord)
    ensures WithUpdated(s + t, id, body) == WithUpdated(s, id, body) + WithUpdated(t, id, body)
  {
    var l, r := WithUpdated(s + t, id, body), WithUpdated(s, id, body) + WithUpdated(t, id, body);
    assert |l| == |r|;
    WithUpdatedAt(s + t, id, body);
    WithUpdatedAt(s, id, body);
    WithUpdatedAt(t, id, body);
    forall i | 0 <= i < |l| ensures l[i] == r[i] {
      if i < |s| {
        assert (s + t)[i] == s[i];
      } else {
        assert (s + t)[i] == t[i - |s|];
      }
    }
  }

  /** The records found under one name have distinct ids when the zone's do. */
  lemma {:induction false} FindByNameUnique(records: seq<DnsRecordResult>, name: string)
    requires UniqueIds(records)
    ensures UniqueIds(FindByName(records, name))
    decreases |records|
  {
    if records != [] {
      var rest := FindByName(records[1..], name);
      assert UniqueIds(records[1..]) by {
        forall i, j | 0 <= i < j < |records[1..]| ensures records[1..][i].id != records[1..][j].id {
          assert records[1..][i] == records[i + 1] && records[1..][j] == records[j + 1];
        }
      }
      FindByNameUnique(records[1..], name);
      FindByNameExact(records[1..], name);
      if records[0].record.name == name {
        var found := [records[0]] + rest;
        forall j | 0 < j < |found| ensures found[0].id != found[j].id {
          assert found[j] == rest[j - 1];
          assert rest[j - 1] in records[1..];
          var k :| 0 <= k < |records[1..]| && records[1..][k] == rest[j - 1];
          assert records[k + 1] == rest[j - 1];
        }
        forall i, j | 0 <= i < j < |found| ensures found[i].id != found[j].id {
          if i > 0 {
            assert found[i] == rest[i - 1] && found[j] == rest[j - 1];
          }
        }
      }
    }
  }

  // ---------------------------------------------------------------------
  // What an upsert does

  /** Exactly one of update and create happens: with a match, the first
      match is overwritten under its own id and nothing is created; without
      one, one record is appended under a fresh id. Either way the returned
      record is the TXT record written, and it is stored in the zone. */
  lemma UpsertUpdatesOrCreates(records: seq<DnsRecordResult>, nextId: RecordId, name: string, value: string)
    requires WellFormed(records, nextId)
    ensures var u := Upsert(records, nextId, name, value);
      var found := FindByName(records, name);
      && u.result.record == DnsRecord(TXT, name, value, 120, false)
      && u.result in u.records
      && (found != [] ==> u.result.id == found[0].id && u.nextId == nextId && |u.records| == |records|)
      && (found == [] ==> u.result.id == nextId && u.nextId == nextId + 1 && u.records == records + [u.result]
                          && !HasId(records, u.result.id))
  {
    var u := Upsert(records, nextId, name, value);
    var found := FindByName(records, name);
    if found != [] {
      FindByNameExact(records, name);
      WithUpdatedAt(records, found[0].id, TxtRecord(name, value));
      assert found[0] in records;
      var k :| 0 <= k < |records| && records[k] == found[0];
      assert u.records[k] == u.result;
    } else {
      assert u.records[|records|] == u.result;
    }
  }

  /** Nothing is deleted or moved: every record keeps its id and place, and
      every record whose id differs from the returned one is unchanged. */
  lemma UpsertLeavesOthers(records: seq<DnsRecordResult>, nextId: RecordId, name: string, value: string)
    ensures var u := Upsert(records, nextId, name, value);
      && |records| <= |u.records| <= |records| + 1
      && (forall i :: 0 <= i < |records| ==> u.records[i].id == records[i].id)
      && (forall i :: 0 <= i < |records| && records[i].id != u.result.id ==> u.records[i] == records[i])
  {
    var found := FindByName(records, name);
    if found != [] {
      WithUpdatedAt(records, found[0].id, TxtRecord(name, value));
    }
  }

  /** The provider's invariant (unique ids, all below the next id) survives an upsert. */
  lemma UpsertWellFormed(records: seq<DnsRecordResult>, nextId: RecordId, name: string, value: string)
    requires WellFormed(records, nextId)
    ensures var u := Upsert(records, nextId, name, value); WellFormed(u.records, u.nextId) && u.nextId >= nextId
  {
    var u := Upsert(records, nextId, name, value);
    UpsertLeavesOthers(records, nextId, name, value);
    if FindByName(records, name) == [] {
      forall i, j | 0 <= i < j < |u.records| ensures u.records[i].id != u.records[j].id {
        if j == |records| {
          assert u.records[i] == records[i];
        } else {
          assert u.records[i] == records[i] && u.records[j] == records[j];
        }
      }
    }
  }

  /** With at most one record of that name beforehand, exactly one exists
      afterwards, holding the new value. */
  lemma UpsertSingleRecord(records: seq<DnsRecordResult>, nextId: RecordId, name: string, value: string)
    requires WellFormed(records, nextId)
    requires |FindByName(records, name)| <= 1
    ensures var u := Upsert(records, nextId, name, value);
      FindByName(u.records, name) == [u.result] && u.result.record.content == value
  {
    var u := Upsert(records, nextId, name, value);
    var found := FindByName(records, name);
    var body := TxtRecord(name, value);
    if found != [] {
      assert found == [found[0]];
      FindByNameExact(records, name);
      assert found[0] in records;
      var k :| 0 <= k < |records| && records[k] == found[0];
      forall i | 0 <= i < |records| && records[i].id == found[0].id
        ensures records[i].record.name == name
      {
        assert i == k;
      }
      FindByNameUpdated(records, found[0].id, body, name);
      assert WithUpdated(found, found[0].id, body)[0] == u.result;
    } else {
      FindByNameAppend(records, u.result, name);
    }
  }

  /** Upserting the same name twice updates the record created or found by
      the first call and does not duplicate it. */
  lemma UpsertTwice(records: seq<DnsRecordResult>, nextId: RecordId, name: string, first: string, second: string)
    requires WellFormed(records, nextId)
    requires |FindByName(records, name)| <= 1
    ensures var u1 := Upsert(records, nextId, name, first);
      var u2 := Upsert(u1.records, u1.nextId, name, second);
      && FindByName(u2.records, name) == [u2.result]
      && u2.result.id == u1.result.id
      && u2.result.record.content == second
      && |u2.records| == |u1.records|
      && u2.nextId == u1.nextId
  {
    var u1 := Upsert(records, nextId, name, first);
    UpsertSingleRecord(records, nextId, name, first);
    UpsertWellFormed(records, nextId, name, first);
    UpsertSingleRecord(u1.records, u1.nextId, name, second);
  }

  /** With two or more records of that name (an ambiguous zone), only the
      first is rewritten: the later duplicates stay as they were. */
  lemma UpsertKeepsDuplicates(records: seq<DnsRecordResult>, nextId: RecordId, name: string, value: string)
    requires WellFormed(records, nextId)
    requires |FindByName(records, name)| >= 2
    ensures var u := Upsert(records, nextId, name, value);
      var before, after := FindByName(records, name), FindByName(u.records, name);
      && |after| == |before|
      && after[0] == u.result
      && after[1..] == before[1..]
  {
    var u := Upsert(records, nextId, name, value);
    var found := FindByName(records, name);
    var body := TxtRecord(name, value);
    FindByNameExact(records, name);
    assert found[0] in records;
    var k :| 0 <= k < |records| && records[k] == found[0];
    forall i | 0 <= i < |records| && records[i].id == found[0].id
      ensures records[i].record.name == name
    {
      assert i == k;
    }
    FindByNameUpdated(records, found[0].id, body, name);
    FindByNameUnique(records, name);
    var after := WithUpdated(found, found[0].id, body);
    WithUpdatedAt(found, found[0].id, body);
    forall j | 1 <= j < |found| ensures after[j] == found[j] {
      assert found[0].id != found[j].id;
    }
  }
}
