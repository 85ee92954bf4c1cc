/** The Cloudflare DNS API as the job sees it: record shapes and a provider
    object holding the records of each zone.

    A zone's records are kept in the order the provider lists them, so that
    "the first record found" is well defined. Record ids are assigned by the
    provider from a counter. */
module Cloudflare {
  import opened Wrappers

  datatype RecordType =
    | A | AAAA | CNAME | TXT | MX | NS | SRV | SPF | PTR | LOC | CAA
    | CERT | DNSKEY | DS | NAPTR | SMIMEA | SSHFP | TLSA | URI

  /** The body sent when creating or updating a record (`DnsRecord`). */
  datatype DnsRecord = DnsRecord(recordType: RecordType, name: string, content: string, ttl: int, proxied: bool)

  type RecordId = nat

  /** A record as the provider returns it (`DnsRecordResult`): the body plus its id. */
  datatype DnsRecordResult = DnsRecordResult(id: RecordId, record: DnsRecord)

  /** Why a provider call failed (the HTTP client throws on these). */
  datatype ApiError = ZoneNotFound | RecordNotFound

  /** The records named `name`, in listing order (`GET dns_records?name=`). */
  function FindByName(records: seq<DnsRecordResult>, name: string): (found: seq<DnsRecordResult>)
    ensures |found| <= |records|
    decreases |records|
  {
    if records == [] then []
    else (if records[0].record.name == name then [records[0]] else []) + FindByName(records[1..], name)
  }

  /** The records found under a name are exactly the listed records with that name. */
  lemma {:induction false} FindByNameExact(records: seq<DnsRecordResult>, name: string)
    ensures forall r :: r in FindByName(records, name) <==> r in records && r.record.name == name
    decreases |records|
  {
    if records != [] {
      FindByNameExact(records[1..], name);
      assert records == [records[0]] + records[1..];
    }
  }

  /** The records after `PATCH dns_records/{id}`: the record with that id
      gets the new body and keeps its id and its place; the others are untouched. */
  function WithUpdated(records: seq<DnsRecordResult>, id: RecordId, body: DnsRecord): (updated: seq<DnsRecordResult>)
    ensures |updated| == |records|
    decreases |records|
  {
    if records == [] then []
    else
      var head := if records[0].id == id then DnsRecordResult(id, body) else records[0];
      [head] + WithUpdated(records[1..], id, body)
  }

  /** After the update, the record with that id holds the new body; every
      other record is untouched, and none moves. */
  lemma {:induction false} WithUpdatedAt(records: seq<DnsRecordResult>, id: RecordId, body: DnsRecord)
    ensures forall i :: 0 <= i < |records| ==>
      WithUpdated(records, id, body)[i] == (if records[i].id == id then DnsRecordResult(id, body) else records[i])
    decreases |records|
  {
    if records != [] {
      WithUpdatedAt(records[1..], id, body);
      var updated := WithUpdated(records, id, body);
      forall i | 1 <= i < |records|
        ensures updated[i] == (if records[i].id == id then DnsRecordResult(id, body) else records[i])
      {
        assert updated[i] == WithUpdated(records[1..], id, body)[i - 1];
        assert records[1..][i - 1] == records[i];
      }
    }
  }

  /** Whether some record of the list has the id. */
  predicate HasId(records: seq<DnsRecordResult>, id: RecordId)
  {
    exists i :: 0 <= i < |records| && records[i].id == id
  }

  /** No two records of the list share an id. */
  predicate UniqueIds(records: seq<DnsRecordResult>)
  {
    forall i, j :: 0 <= i < j < |records| ==> records[i].id != records[j].id
  }

  /** Ids are unique and every id is below the provider's next id. */
  predicate WellFormed(records: seq<DnsRecordResult>, nextId: RecordId)
  {
    UniqueIds(records) && forall i :: 0 <= i < |records| ==> records[i].id < nextId
  }

  /** The DNS provider: the records of every zone it hosts. */
  class CloudflareDnsClient {
    var zones: map<string, seq<DnsRecordResult>>
    var nextId: RecordId

    ghost predicate Valid()
      reads this
    {
      forall z :: z in zones ==> WellFormed(zones[z], nextId)
    }

    /** A provider hosting the given zones, all empty. */
    constructor (zoneIds: set<string>)
      ensures Valid()
      ensures zones == (map z | z in zoneIds :: []) && nextId == 0
    {
      zones := map z | z in zoneIds :: [];
      nextId := 0;
    }

    /** `FindByNameAsync(zoneId, name)`: the zone's records with that name. */
    function FindByNameAsync(zoneId: string, name: string): (r: Result<seq<DnsRecordResult>, ApiError>)
      reads this
      ensures r.Failure? <==> zoneId !in zones
      ensures r.Failure? ==> r.error == ZoneNotFound
      ensures r.Success? ==> forall rec :: rec in r.value <==> rec in zones[zoneId] && rec.record.name == name
    {
      if zoneId in zones then
        FindByNameExact(zones[zoneId], name);
        Success(FindByName(zones[zoneId], name))
      else Failure(ZoneNotFound)
    }

    /** `UpdateAsync(zoneId, id, body)`: overwrites the record with that id. */
    method UpdateAsync(zoneId: string, id: RecordId, body: DnsRecord) returns (r: Result<DnsRecordResult, ApiError>)
      requires Valid()
      modifies this
      ensures Valid() && nextId == old(nextId)
      ensures zoneId !in old(zones) ==> r == Failure(ZoneNotFound) && zones == old(zones)
      ensures zoneId in old(zones) && !HasId(old(zones[zoneId]), id) ==>
        r == Failure(RecordNotFound) && zones == old(zones)
      ensures zoneId in old(zones) && HasId(old(zones[zoneId]), id) ==>
        r == Success(DnsRecordResult(id, body))
        && zones == old(zones)[zoneId := WithUpdated(old(zones[zoneId]), id, body)]
    {
      if zoneId !in zones {
        return Failure(ZoneNotFound);
      }
      if !HasId(zones[zoneId], id) {
        return Failure(RecordNotFound);
      }
      var updated := WithUpdated(zones[zoneId], id, body);
      WithUpdatedAt(zones[zoneId], id, body);
      assert forall i :: 0 <= i < |updated| ==> updated[i].id == zones[zoneId][i].id;
      zones := zones[zoneId := updated];
      r := Success(DnsRecordResult(id, body));
    }

    /** `CreateAsync(zoneId, body)`: appends a record under a fresh id. */
    method CreateAsync(zoneId: string, body: DnsRecord) returns (r: Result<DnsRecordResult, ApiError>)
      requires Valid()
      modifies this
      ensures Valid()
      ensures zoneId !in old(zones) ==>
        r == Failure(ZoneNotFound) && zones == old(zones) && nextId == old(nextId)
      ensures zoneId in old(zones) ==>
        r == Success(DnsRecordResult(old(nextId), body))
        && zones == old(zones)[zoneId := old(zones[zoneId]) + [DnsRecordResult(old(nextId), body)]]
        && nextId == old(nextId) + 1
    {
      if zoneId !in zones {
        return Failure(ZoneNotFound);
      }
      var created := DnsRecordResult(nextId, body);
      zones := zones[zoneId := zones[zoneId] + [created]];
      nextId := nextId + 1;
      r := Success(created);
    }
  }
}
