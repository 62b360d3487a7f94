/** Connection codes: single-use credentials issued in batches and dispensed
    one at a time, latest creation date first. */
module ConnectionCodes {
  import opened Wrappers
  import opened Clock

  /** A row of the connection-code table (Go's ConnectionCodes). Identifiers are
      chosen by the caller and need not be unique. */
  datatype ConnectionCode = ConnectionCode(
    id: nat,
    connectionString: string,
    dateCreated: Option<Time>,
    isUsed: bool)

  /** The reduced view GetConnectionCode returns (Go's ConnectionCodesShort). */
  datatype ConnectionCodeShort = ConnectionCodeShort(connectionString: string, dateCreated: Option<Time>)

  /** The zero value returned when no code is available. */
  const NoCode: ConnectionCodeShort := ConnectionCodeShort("", None)

  function Shorten(c: ConnectionCode): ConnectionCodeShort {
    ConnectionCodeShort(c.connectionString, c.dateCreated)
  }

  /** A creation date that is nil or Go's zero time counts as missing. */
  predicate MissingDate(c: ConnectionCode) {
    c.dateCreated == None || c.dateCreated == Some(ZeroTime)
  }

  /** The record as CreateConnectionCode stores it: a missing date becomes `now`,
      everything else is kept. */
  function WithDefaultDate(c: ConnectionCode, now: Time): (d: ConnectionCode)
    ensures d.id == c.id && d.connectionString == c.connectionString && d.isUsed == c.isUsed
    ensures d.dateCreated.Some?
    ensures MissingDate(c) ==> d.dateCreated == Some(now)
    ensures !MissingDate(c) ==> d == c
  {
    if MissingDate(c) then c.(dateCreated := Some(now)) else c
  }

  /** Every row has a creation date: the table never holds a nil DateCreated. */
  predicate Dated(cs: seq<ConnectionCode>) {
    forall i :: 0 <= i < |cs| ==> cs[i].dateCreated.Some?
  }

  /** The defaulting pass over a batch: one record per input, in input order. */
  method FillMissingDates(codes: seq<ConnectionCode>, now: Time) returns (filled: seq<ConnectionCode>)
    ensures |filled| == |codes|
    ensures forall i :: 0 <= i < |codes| ==> filled[i] == WithDefaultDate(codes[i], now)
    ensures Dated(filled)
  {
    filled := [];
    for i := 0 to |codes|
      invariant |filled| == i
      invariant forall j :: 0 <= j < i ==> filled[j] == WithDefaultDate(codes[j], now)
    {
      filled := filled + [WithDefaultDate(codes[i], now)];
    }
  }

  /** Row `k` is unused and no unused row was created later. */
  predicate IsLatestUnused(cs: seq<ConnectionCode>, k: int)
    requires Dated(cs)
  {
    0 <= k < |cs| && !cs[k].isUsed &&
    forall j :: 0 <= j < |cs| && !cs[j].isUsed ==> cs[j].dateCreated.value <= cs[k].dateCreated.value
  }

  predicate AllUsed(cs: seq<ConnectionCode>) {
    forall j :: 0 <= j < |cs| ==> cs[j].isUsed
  }

  /** The row GetConnectionCode dispenses: the unused row with the latest creation
      date; among rows with that date, the one inserted first. */
  method LatestUnused(cs: seq<ConnectionCode>) returns (r: Option<nat>)
    requires Dated(cs)
    ensures r.None? <==> AllUsed(cs)
    ensures r.Some? ==> IsLatestUnused(cs, r.value)
    ensures r.Some? ==> forall j :: 0 <= j < r.value && !cs[j].isUsed ==>
                          cs[j].dateCreated.value < cs[r.value].dateCreated.value
  {
    r := None;
    for i := 0 to |cs|
      invariant r.None? <==> forall j :: 0 <= j < i ==> cs[j].isUsed
      invariant r.Some? ==> r.value < i && !cs[r.value].isUsed
      invariant r.Some? ==> forall j :: 0 <= j < i && !cs[j].isUsed ==>
                              cs[j].dateCreated.value <= cs[r.value].dateCreated.value
      invariant r.Some? ==> forall j :: 0 <= j < r.value && !cs[j].isUsed ==>
                              cs[j].dateCreated.value < cs[r.value].dateCreated.value
    {
      if !cs[i].isUsed && (r.None? || cs[r.value].dateCreated.value < cs[i].dateCreated.value) {
        r := Some(i);
      }
    }
  }

  function MarkUsed(c: ConnectionCode): ConnectionCode {
    c.(isUsed := true)
  }

  /** Number of codes still available. */
  function Unused(cs: seq<ConnectionCode>): (n: nat)
    ensures n <= |cs|
    ensures n == 0 <==> AllUsed(cs)
  {
    if cs == [] then 0 else (if cs[0].isUsed then 0 else 1) + Unused(cs[1..])
  }

  /** Dispensing consumes exactly one code. */
  lemma {:induction false} MarkUsedConsumesOne(cs: seq<ConnectionCode>, k: nat)
    requires k < |cs| && !cs[k].isUsed
    ensures Unused(cs[k := MarkUsed(cs[k])]) == Unused(cs) - 1
  {
    if k == 0 {
      assert cs[k := MarkUsed(cs[k])][1..] == cs[1..];
    } else {
      assert cs[k := MarkUsed(cs[k])][1..] == cs[1..][k - 1 := MarkUsed(cs[k])];
      MarkUsedConsumesOne(cs[1..], k - 1);
    }
  }

  /** A later table keeps every used flag of the earlier one: used is never reset. */
  predicate UsedStaysUsed(before: seq<ConnectionCode>, after: seq<ConnectionCode>) {
    |before| <= |after| &&
    forall i :: 0 <= i < |before| && before[i].isUsed ==> after[i].isUsed
  }
}
