/** Bounties and the six report buckets of GetFilterStatusCount, as the table
    tests of db/db_test.go fix them. */
module Bounties {
  import opened Wrappers
  import opened Clock

  /** A row of the bounty table (Go's NewBounty), reduced to the columns the
      status report and the proof-of-work counter read or write. */
  datatype Bounty = Bounty(
    id: nat,
    show: bool,
    assignee: string,
    completed: bool,
    paid: bool,
    paymentPending: bool,
    paymentFailed: bool,
    proofOfWorkCount: int,
    updated: Option<Time>)

  datatype Bucket = Open | Assigned | Completed | Paid | Pending | Failed

  /** The report (Go's FilterStattuCount). */
  datatype FilterStatusCount = FilterStatusCount(
    openCount: nat, assignedCount: nat, completedCount: nat,
    paidCount: nat, pendingCount: nat, failedCount: nat)

  /** Whether bounty `b` counts in bucket `k`. Hidden bounties count nowhere;
      Assigned leaves out paid rows, the other buckets read one flag each. */
  predicate InBucket(b: Bounty, k: Bucket) {
    b.show &&
    match k
    case Open => b.assignee == ""
    case Assigned => b.assignee != "" && !b.paid
    case Completed => b.completed
    case Paid => b.paid
    case Pending => b.paymentPending
    case Failed => b.paymentFailed
  }

  /** Number of bounties of `bs` in bucket `k`. */
  function Tally(bs: seq<Bounty>, k: Bucket): (n: nat)
    ensures n <= |bs|
    ensures n <= |Visible(bs)|
  {
    if bs == [] then 0
    else (if InBucket(bs[0], k) then 1 else 0) + Tally(bs[1..], k)
  }

  /** The shown bounties of `bs`, in order. */
  function Visible(bs: seq<Bounty>): seq<Bounty> {
    if bs == [] then []
    else (if bs[0].show then [bs[0]] else []) + Visible(bs[1..])
  }

  /** Shown bounties that are assigned and already paid: neither Open nor Assigned. */
  function PaidOut(bs: seq<Bounty>): nat {
    if bs == [] then 0
    else (if bs[0].show && bs[0].assignee != "" && bs[0].paid then 1 else 0) + PaidOut(bs[1..])
  }

  /** GetFilterStatusCount: one independent count per bucket over the whole table. */
  function GetFilterStatusCount(bs: seq<Bounty>): (r: FilterStatusCount)
    // no bucket counts a hidden bounty; a table of hidden bounties reports zeros
    ensures r.openCount <= |Visible(bs)| && r.assignedCount <= |Visible(bs)| &&
            r.completedCount <= |Visible(bs)| && r.paidCount <= |Visible(bs)| &&
            r.pendingCount <= |Visible(bs)| && r.failedCount <= |Visible(bs)|
    // each shown bounty is Open, Assigned or assigned-and-paid, exactly one of them
    ensures r.openCount + r.assignedCount + PaidOut(bs) == |Visible(bs)|
  {
    OpenAssignedPartition(bs);
    FilterStatusCount(
      Tally(bs, Open), Tally(bs, Assigned), Tally(bs, Completed),
      Tally(bs, Paid), Tally(bs, Pending), Tally(bs, Failed))
  }

  /** Counting distributes over concatenation of tables. */
  lemma {:induction false} TallyAppend(a: seq<Bounty>, b: seq<Bounty>, k: Bucket)
    ensures Tally(a + b, k) == Tally(a, k) + Tally(b, k)
  {
    if a == [] {
      assert a + b == b;
    } else {
      assert (a + b)[1..] == a[1..] + b;
      TallyAppend(a[1..], b, k);
    }
  }

  /** Taking row `i` out of a table removes that row from its multiset and its count. */
  lemma RemoveRow(b: seq<Bounty>, i: nat, k: Bucket)
    requires i < |b|
    ensures multiset(b[..i] + b[i + 1..]) == multiset(b) - multiset{b[i]}
    ensures Tally(b, k) == (if InBucket(b[i], k) then 1 else 0) + Tally(b[..i] + b[i + 1..], k)
  {
    assert b == b[..i] + [b[i]] + b[i + 1..];
    TallyAppend(b[..i] + [b[i]], b[i + 1..], k);
    TallyAppend(b[..i], [b[i]], k);
    TallyAppend(b[..i], b[i + 1..], k);
  }

  /** A position of `x` in `b`, given that `x` occurs in `b`. */
  lemma IndexOf(b: seq<Bounty>, x: Bounty) returns (i: nat)
    requires x in multiset(b)
    ensures i < |b| && b[i] == x
  {
    assert x in b;
    i :| 0 <= i < |b| && b[i] == x;
  }

  /** A count is a property of the table, not of the order of its rows. */
  lemma {:induction false} TallyPermutation(a: seq<Bounty>, b: seq<Bounty>, k: Bucket)
    requires multiset(a) == multiset(b)
    ensures Tally(a, k) == Tally(b, k)
    decreases |a|
  {
    if a == [] {
      assert |b| == |multiset(b)| == 0;
    } else {
      var i := IndexOf(b, a[0]);
      RemoveRow(b, i, k);
      RemoveRow(a, 0, k);
      assert a[..0] + a[1..] == a[1..];
      TallyPermutation(a[1..], b[..i] + b[i + 1..], k);
    }
  }

  /** Hidden rows contribute nothing: the counts of a table equal those of its shown rows. */
  lemma {:induction false} TallyOfVisible(bs: seq<Bounty>, k: Bucket)
    ensures Tally(bs, k) == Tally(Visible(bs), k)
  {
    if bs != [] {
      TallyOfVisible(bs[1..], k);
      TallyAppend(if bs[0].show then [bs[0]] else [], Visible(bs[1..]), k);
    }
  }

  /** Inserting a hidden bounty anywhere in the table changes none of the six counts. */
  lemma HiddenBountyCountsNowhere(before: seq<Bounty>, hidden: Bounty, after: seq<Bounty>)
    requires !hidden.show
    ensures GetFilterStatusCount(before + [hidden] + after) == GetFilterStatusCount(before + after)
  {
    forall k: Bucket ensures Tally(before + [hidden] + after, k) == Tally(before + after, k) {
      TallyAppend(before + [hidden], after, k);
      TallyAppend(before, [hidden], k);
      TallyAppend(before, after, k);
    }
  }

  /** Every shown bounty is exactly one of Open, Assigned or paid-out: Open and
      Assigned are disjoint, and Assigned misses exactly the paid assigned rows. */
  lemma {:induction false} OpenAssignedPartition(bs: seq<Bounty>)
    ensures Tally(bs, Open) + Tally(bs, Assigned) + PaidOut(bs) == |Visible(bs)|
  {
    if bs != [] {
      OpenAssignedPartition(bs[1..]);
    }
  }

  /** The row with identifier `id`, if any: the first such row. */
  method FindBounty(bs: seq<Bounty>, id: nat) returns (r: Option<nat>)
    ensures r.None? <==> forall i :: 0 <= i < |bs| ==> bs[i].id != id
    ensures r.Some? ==> r.value < |bs| && bs[r.value].id == id
    ensures r.Some? ==> forall i :: 0 <= i < r.value ==> bs[i].id != id
  {
    var i := 0;
    while i < |bs|
      invariant 0 <= i <= |bs|
      invariant forall j :: 0 <= j < i ==> bs[j].id != id
    {
      if bs[i].id == id {
        return Some(i);
      }
      i := i + 1;
    }
    return None;
  }

  /** Identifiers are the table's primary key. */
  predicate UniqueIds(bs: seq<Bounty>) {
    forall i, j :: 0 <= i < j < |bs| ==> bs[i].id != bs[j].id
  }

  /** The row IncrementProofCount writes: one more proof of work, stamped `now`. */
  function Incremented(b: Bounty, now: Time): Bounty {
    b.(proofOfWorkCount := b.proofOfWorkCount + 1, updated := Some(now))
  }

  /** Replacing one row by a row in the same bucket keeps that bucket's count. */
  lemma {:induction false} TallyReplace(bs: seq<Bounty>, i: nat, x: Bounty, k: Bucket)
    requires i < |bs|
    requires InBucket(x, k) == InBucket(bs[i], k)
    ensures Tally(bs[i := x], k) == Tally(bs, k)
  {
    if i == 0 {
      assert bs[i := x][1..] == bs[1..];
    } else {
      assert bs[i := x][1..] == bs[1..][i - 1 := x];
      TallyReplace(bs[1..], i - 1, x, k);
    }
  }

  /** Bumping a proof count moves no bounty between buckets, so the report is unchanged. */
  lemma IncrementKeepsStatusCounts(bs: seq<Bounty>, i: nat, now: Time)
    requires i < |bs|
    ensures GetFilterStatusCount(bs[i := Incremented(bs[i], now)]) == GetFilterStatusCount(bs)
  {
    forall k: Bucket ensures Tally(bs[i := Incremented(bs[i], now)], k) == Tally(bs, k) {
      TallyReplace(bs, i, Incremented(bs[i], now), k);
    }
  }

  /** A bounty with the given flags and the other columns at their zero values. */
  function Row(show: bool, assignee: string, completed: bool, paid: bool, pending: bool, failed: bool): Bounty {
    Bounty(0, show, assignee, completed, paid, pending, failed, 0, None)
  }

  /** The "Hidden Bounties Should Not Count" table. */
  lemma HiddenFixture()
    ensures GetFilterStatusCount([Row(false, "", false, false, false, false),
                                  Row(false, "user1", true, false, false, false)])
         == FilterStatusCount(0, 0, 0, 0, 0, 0)
  {
  }

  /** The "Paid Bounties Count" table: paid rows are not Assigned. */
  lemma PaidFixture()
    ensures GetFilterStatusCount([Row(true, "user1", false, true, false, false),
                                  Row(true, "user2", false, true, false, false)])
         == FilterStatusCount(0, 0, 0, 2, 0, 0)
  {
  }

  /** The "Mixed Status Bounties" table: the buckets overlap. */
  lemma MixedFixture()
    ensures GetFilterStatusCount([Row(true, "", false, false, false, false),
                                  Row(true, "user1", false, false, false, false),
                                  Row(true, "user2", true, false, false, false),
                                  Row(true, "user3", false, true, false, false),
                                  Row(true, "user4", false, false, true, false),
                                  Row(true, "user5", false, false, false, true),
                                  Row(false, "user6", false, true, false, false)])
         == FilterStatusCount(1, 4, 1, 1, 1, 1)
  {
  }
}
