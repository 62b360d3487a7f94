/** The store: one bounty table and one connection-code table, with the three
    operations of db/db_test.go that change them. Operations run one at a time;
    the row locking and atomic updates of the real store are not modelled. */
module Store {
  import opened Wrappers
  import opened Clock
  import opened Bounties
  import opened ConnectionCodes

  datatype DbError =
    | ErrRecordNotFound   // gorm.ErrRecordNotFound
    | ErrEmptyBatch       // CreateConnectionCode given nothing to insert

  class Database {
    var bounties: seq<Bounty>
    var connectionCodes: seq<ConnectionCode>

    ghost predicate Valid()
      reads this
    {
      UniqueIds(bounties) && Dated(connectionCodes)
    }

    /** A store holding the given bounties and no connection code. */
    constructor (bounties: seq<Bounty>)
      requires UniqueIds(bounties)
      ensures Valid()
      ensures this.bounties == bounties && connectionCodes == []
    {
      this.bounties := bounties;
      connectionCodes := [];
    }

    /** Inserts a batch. An empty (or nil) batch fails and inserts nothing; otherwise
        the batch is appended with missing dates set to `now` and returned. */
    method CreateConnectionCode(codes: seq<ConnectionCode>, now: Time)
      returns (r: Result<seq<ConnectionCode>, DbError>)
      requires Valid()
      modifies this
      ensures Valid() && bounties == old(bounties)
      ensures UsedStaysUsed(old(connectionCodes), connectionCodes)
      ensures codes == [] ==> r == Err(ErrEmptyBatch) && connectionCodes == old(connectionCodes)
      ensures codes != [] ==> r.Ok? && |r.value| == |codes|
      ensures codes != [] ==> forall i :: 0 <= i < |codes| ==> r.value[i] == WithDefaultDate(codes[i], now)
      ensures codes != [] ==> connectionCodes == old(connectionCodes) + r.value
    {
      if |codes| == 0 {
        return Err(ErrEmptyBatch);
      }
      var filled := FillMissingDates(codes, now);
      connectionCodes := connectionCodes + filled;
      r := Ok(filled);
    }

    /** Dispenses the unused code with the latest creation date and marks it used;
        with no unused code, returns the empty value and changes nothing. */
    method GetConnectionCode() returns (r: ConnectionCodeShort)
      requires Valid()
      modifies this
      ensures Valid() && bounties == old(bounties)
      ensures UsedStaysUsed(old(connectionCodes), connectionCodes)
      ensures AllUsed(old(connectionCodes)) ==> r == NoCode && connectionCodes == old(connectionCodes)
      ensures !AllUsed(old(connectionCodes)) ==>
        exists k :: IsLatestUnused(old(connectionCodes), k) &&
          r == Shorten(old(connectionCodes)[k]) &&
          connectionCodes == old(connectionCodes)[k := MarkUsed(old(connectionCodes)[k])]
      ensures Unused(connectionCodes) == if AllUsed(old(connectionCodes)) then 0 else Unused(old(connectionCodes)) - 1
    {
      var k := LatestUnused(connectionCodes);
      if k.None? {
        return NoCode;
      }
      var i := k.value;
      MarkUsedConsumesOne(connectionCodes, i);
      r := Shorten(connectionCodes[i]);
      connectionCodes := connectionCodes[i := MarkUsed(connectionCodes[i])];
    }

    /** Adds one to the proof-of-work count of bounty `id` and stamps it `now`;
        a missing id fails with record-not-found and changes nothing. */
    method IncrementProofCount(id: nat, now: Time) returns (err: Option<DbError>)
      requires Valid()
      modifies this
      ensures Valid() && connectionCodes == old(connectionCodes)
      ensures err.None? <==> exists i :: 0 <= i < |old(bounties)| && old(bounties)[i].id == id
      ensures err.Some? ==> err == Some(ErrRecordNotFound) && bounties == old(bounties)
      ensures err.None? ==>
        exists i :: 0 <= i < |old(bounties)| && old(bounties)[i].id == id &&
          bounties == old(bounties)[i := Incremented(old(bounties)[i], now)]
      ensures GetFilterStatusCount(bounties) == GetFilterStatusCount(old(bounties))
    {
      var k := FindBounty(bounties, id);
      if k.None? {
        return Some(ErrRecordNotFound);
      }
      var i := k.value;
      IncrementKeepsStatusCounts(bounties, i, now);
      bounties := bounties[i := Incremented(bounties[i], now)];
      err := None;
    }
  }

  /** Instants of the fixtures, in seconds since 0001-01-01 UTC. */
  const Jan2nd2006: Time := 63271756800
  const Oct1st2023: Time := 63831715200
  const Oct2nd2023: Time := 63831801600
  const Oct1st2025: Time := 63894873600

  /** Rows of the IncrementProofCount table, replayed against the contracts. */
  method IncrementProofCountTable(now: Time) {
    var db := new Database([Bounty(4, false, "", false, false, false, false, -5, None)]);
    var err := db.IncrementProofCount(4, now);
    assert db.bounties[0].proofOfWorkCount == -4 && db.bounties[0].updated == Some(now);
    err := db.IncrementProofCount(9999, now);
    assert err == Some(ErrRecordNotFound);
    err := db.IncrementProofCount(0, now);
    assert err == Some(ErrRecordNotFound);
  }

  /** Rows of the CreateConnectionCode table, replayed against the contracts. */
  method CreateConnectionCodeTable(now: Time) {
    var db := new Database([]);
    var batch := db.CreateConnectionCode([], now);
    assert batch == Err(ErrEmptyBatch);
    batch := db.CreateConnectionCode([ConnectionCode(1, "", None, false), ConnectionCode(1, "", None, false)], now);
    assert batch.value == [ConnectionCode(1, "", Some(now), false), ConnectionCode(1, "", Some(now), false)];
    batch := db.CreateConnectionCode([ConnectionCode(7, "", Some(Oct1st2023), false), ConnectionCode(8, "", None, false),
                                      ConnectionCode(9, "", Some(ZeroTime), false)], now);
    assert batch.value[0].dateCreated == Some(Oct1st2023);
    assert batch.value[1].dateCreated == Some(now) && batch.value[2].dateCreated == Some(now);
    batch := db.CreateConnectionCode([ConnectionCode(1, "", Some(Oct1st2025), false)], now);
    assert batch.value == [ConnectionCode(1, "", Some(Oct1st2025), false)];
  }

  /** The "Basic Functionality" row of GetConnectionCode: 2023-10-02 wins over 2006-01-02. */
  method DispenseBasic(now: Time) {
    var db := new Database([]);
    var batch := db.CreateConnectionCode([ConnectionCode(0, "code1", Some(Jan2nd2006), false),
                                          ConnectionCode(0, "code2", Some(Oct2nd2023), false)], now);
    var code := db.GetConnectionCode();
    assert code == ConnectionCodeShort("code2", Some(Oct2nd2023));
    assert !db.connectionCodes[0].isUsed && db.connectionCodes[1].isUsed;
  }

  /** The "Multiple Unused Connection Codes" row: the later date is dispensed first. */
  method DispenseLatestFirst(now: Time) {
    var db := new Database([]);
    var batch := db.CreateConnectionCode([ConnectionCode(0, "code1", Some(Oct1st2023), false),
                                          ConnectionCode(0, "code2", Some(Oct2nd2023), false)], now);
    var code := db.GetConnectionCode();
    assert code == ConnectionCodeShort("code2", Some(Oct2nd2023));
    code := db.GetConnectionCode();
    assert code == ConnectionCodeShort("code1", Some(Oct1st2023));
    code := db.GetConnectionCode();
    assert code == NoCode;
  }

  /** The "No Unused Connection Codes" and "Empty Database" rows: the empty value, not an error. */
  method DispenseNothing(now: Time) {
    var db := new Database([]);
    var code := db.GetConnectionCode();
    assert code == NoCode;
    var batch := db.CreateConnectionCode([ConnectionCode(0, "code1", Some(Oct1st2023), true)], now);
    code := db.GetConnectionCode();
    assert code == NoCode && db.connectionCodes[0].isUsed;
  }
}
