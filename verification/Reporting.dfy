/** The transaction report over the in-memory store (internal/subsystems/storage/reporting.go). */
module Reporting {
  import opened Text
  import opened Payments
  import opened Store
  import opened Lifecycle

  const DEFAULT_REPORT_LIMIT := 100
  const MAX_REPORT_LIMIT := 500

  datatype Filter = Filter(
    merchantID: string, dateFrom: Option<Time>, dateTo: Option<Time>, status: string, paymentSystem: string,
    paymentMethod: string, limit: int)

  datatype Record = Record(
    merchantID: string, paymentID: string, idempotencyKey: string, status: string, payload: Payload,
    createdAt: Time, updatedAt: Time)

  datatype ReportItem = ReportItem(
    paymentID: string, idempotencyKey: string, status: string, amount: Money, paymentMethod: string,
    paymentSystem: string, providerStatus: string, externalTransactionID: string, fraudCheckResult: string,
    createdAt: Time, updatedAt: Time)

  function NormalizedFilter(f: Filter): (r: Filter)
    ensures 0 < r.limit <= MAX_REPORT_LIMIT
  {
    f.(merchantID := Trim(f.merchantID), status := Upper(Trim(f.status)), paymentSystem := Upper(Trim(f.paymentSystem)),
       paymentMethod := Trim(f.paymentMethod),
       limit := if f.limit <= 0 then DEFAULT_REPORT_LIMIT
                else if f.limit > MAX_REPORT_LIMIT then MAX_REPORT_LIMIT else f.limit)
  }

  // ---------- Records ----------

  function ResponseOf(r: Record): PaymentResponse {
    match Unmarshal(SanitizePayload(r.payload))
    case None => ZERO_RESPONSE.(id := r.paymentID, merchantID := r.merchantID, idempotencyKey := r.idempotencyKey,
                                currentStatus := r.status)
    case Some(resp) => Sanitized(resp)
  }

  predicate Matches(r: Record, f: Filter) {
    && (f.dateFrom.Some? ==> r.createdAt >= f.dateFrom.value)
    && (f.dateTo.Some? ==> r.createdAt <= f.dateTo.value)
    && (f.status != "" ==> EqualFold(r.status, f.status))
    && (f.paymentSystem != "" ==> EqualFold(ResponseOf(r).details.paymentSystem, f.paymentSystem))
    && (f.paymentMethod != "" ==> ResponseOf(r).info.methodType == f.paymentMethod)
  }

  function ItemOf(r: Record): ReportItem {
    var resp := ResponseOf(r);
    ReportItem(FirstNonBlankTrimmed(resp.id, r.paymentID), FirstNonBlankTrimmed(resp.idempotencyKey, r.idempotencyKey),
               FirstNonBlankTrimmed(resp.currentStatus, r.status), resp.info.amount, resp.info.methodType,
               resp.details.paymentSystem, resp.details.providerStatus, resp.details.externalTransactionID,
               resp.details.fraudCheckResult, r.createdAt, r.updatedAt)
  }

  // ---------- Selection by key prefix ----------

  predicate InScope(key: string, merchantID: string) {
    HasPrefix(key, merchantID + ":")
  }

  /** The record of a key in scope; its payment id is what follows the prefix. */
  function RecordAt(merchantID: string, key: string, tx: StoredTx): Record
    requires InScope(key, merchantID)
  {
    Record(merchantID, key[|merchantID| + 1..], tx.idempotencyKey, tx.status, tx.payload,
           if tx.createdAt == ZERO_TIME then tx.updatedAt else tx.createdAt, tx.updatedAt)
  }

  predicate Selected(t: Transactions, f: Filter, key: string) {
    key in t.byPaymentID && InScope(key, f.merchantID) && Matches(RecordAt(f.merchantID, key, t.byPaymentID[key]), f)
  }

  function SelectedRecords(t: Transactions, f: Filter): set<Record> {
    set key | key in t.byPaymentID && Selected(t, f, key) :: RecordAt(f.merchantID, key, t.byPaymentID[key])
  }

  /** The prefix of a colon-free merchant takes in exactly its own keys and those of merchants
      whose id goes on with a colon. */
  lemma PrefixScan(merchantID: string, owner: string, id: string)
    requires ':' !in merchantID
    ensures InScope(Composite(owner, id), merchantID) <==> owner == merchantID || HasPrefix(owner, merchantID + ":")
    ensures InScope(Composite(merchantID, id), merchantID) && Composite(merchantID, id)[|merchantID| + 1..] == id
  {
    var key, prefix := Composite(owner, id), merchantID + ":";
    CompositeParts(owner, id);
    CompositeParts(merchantID, id);
    assert Composite(merchantID, id)[..|prefix|] == prefix;
    assert key[|owner|] == ':' && prefix[..|merchantID|] == merchantID;
    assert |owner| < |merchantID| ==> prefix[|owner|] == merchantID[|owner|] != ':';
    assert |prefix| <= |owner| ==> key[..|prefix|] == owner[..|prefix|];
    if |prefix| <= |key| && |owner| <= |merchantID| {
      assert key[..|prefix|][|owner|] == ':';
      assert |owner| == |merchantID| ==> key[..|prefix|][..|merchantID|] == owner;
    }
  }

  lemma ColonFreeHasNoPrefix(owner: string, merchantID: string)
    requires ':' !in owner
    ensures !HasPrefix(owner, merchantID + ":")
  {
    assert (merchantID + ":")[|merchantID|] == ':';
    assert |merchantID| < |owner| ==> owner[..|merchantID| + 1][|merchantID|] == owner[|merchantID|] != ':';
  }

  /** In a good store of colon-free merchants, the scan selects exactly the merchant's own
      transactions and recovers each payment id. */
  lemma ScopeIsExact(t: Transactions, merchantID: string, key: string)
    requires GoodStore(t) && key in t.byPaymentID
    requires ':' !in merchantID && ':' !in t.byPaymentID[key].payload.response.merchantID
    ensures var r := t.byPaymentID[key].payload.response;
            && (InScope(key, merchantID) <==> r.merchantID == merchantID)
            && (InScope(key, merchantID) ==> RecordAt(merchantID, key, t.byPaymentID[key]).paymentID == r.id)
  {
    var r := t.byPaymentID[key].payload.response;
    PrefixScan(merchantID, r.merchantID, r.id);
    ColonFreeHasNoPrefix(r.merchantID, merchantID);
  }

  lemma UpperKeepsBlanks(a: string, b: string)
    requires EqualFold(a, b) && Trimmed(b)
    ensures Trimmed(a)
  {
    if a != "" {
      assert Upper(a)[0] == Upper(b)[0] && Upper(a)[|a| - 1] == Upper(b)[|b| - 1];
    }
  }

  /** Under a status filter, a listed item has that status exactly when its payload's own status
      is blank or agrees with the status column. */
  lemma ListedStatus(r: Record, f: Filter)
    requires Matches(r, NormalizedFilter(f)) && NormalizedFilter(f).status != ""
    ensures EqualFold(ItemOf(r).status, NormalizedFilter(f).status)
            <==> Blank(ResponseOf(r).currentStatus) || EqualFold(Trim(ResponseOf(r).currentStatus), r.status)
  {
    UpperKeepsBlanks(r.status, NormalizedFilter(f).status);
  }

  lemma GoodStatusesAreTrimmed(r: PaymentResponse)
    requires ErrorFits(r)
    ensures Trimmed(r.currentStatus) && r.currentStatus != ""
  {
  }

  /** So in a good store every listed item has the status asked for. */
  lemma StatusFilterHolds(t: Transactions, f: Filter, key: string)
    requires GoodStore(t) && Selected(t, NormalizedFilter(f), key) && NormalizedFilter(f).status != ""
    ensures EqualFold(ItemOf(RecordAt(NormalizedFilter(f).merchantID, key, t.byPaymentID[key])).status,
                      NormalizedFilter(f).status)
  {
    var tx := t.byPaymentID[key];
    var r := RecordAt(NormalizedFilter(f).merchantID, key, tx);
    GoodStatusesAreTrimmed(tx.payload.response);
    GoodStatusIsListed(r, tx);
    ListedStatus(r, f);
  }

  lemma GoodStatusIsListed(r: Record, tx: StoredTx)
    requires GoodTx(tx) && r.payload == tx.payload && r.status == tx.status && Trimmed(tx.status)
    ensures EqualFold(Trim(ResponseOf(r).currentStatus), r.status)
  {
  }

  // ---------- What a filter selects and an item shows ----------

  lemma GoodResponse(tx: StoredTx, r: Record)
    requires GoodTx(tx) && r.payload == tx.payload
    ensures ResponseOf(r) == tx.payload.response
  {
    CleanIsStable(tx.payload.response);
    hide SanitizedDetails, MaskCardNumber, MaskFixed;
  }

  lemma FoldsToFilter(value: string, filter: string)
    ensures EqualFold(value, Upper(Trim(filter))) <==> Upper(value) == Upper(Trim(filter))
    ensures Upper(Trim(filter)) == "" <==> Blank(filter)
  {
    UpperTwice(Trim(filter));
    hide Trim;
  }

  /** In a good store a report selects a key exactly when it starts with the merchant's prefix and its transaction,
      dated by its creation, lies within the dates, both ends included, and has the status, payment system and
      method asked for, as far as they are. */
  lemma SelectedExactly(t: Transactions, f: Filter, key: string)
    requires GoodStore(t) && key in t.byPaymentID
    ensures var tx := t.byPaymentID[key];
            var r, created := tx.payload.response, if tx.createdAt == ZERO_TIME then tx.updatedAt else tx.createdAt;
            Selected(t, NormalizedFilter(f), key)
            <==> && HasPrefix(key, Trim(f.merchantID) + ":")
                 && (f.dateFrom.Some? ==> f.dateFrom.value <= created)
                 && (f.dateTo.Some? ==> created <= f.dateTo.value)
                 && (Blank(f.status) || Upper(tx.status) == Upper(Trim(f.status)))
                 && (Blank(f.paymentSystem) || Upper(r.details.paymentSystem) == Upper(Trim(f.paymentSystem)))
                 && (Blank(f.paymentMethod) || r.info.methodType == Trim(f.paymentMethod))
  {
    var tx := t.byPaymentID[key];
    assert GoodTx(tx);
    hide GoodStore, GoodTx, Trim, Upper, EqualFold, ResponseOf, HasPrefix;
    var m := NormalizedFilter(f).merchantID;
    if InScope(key, m) {
      GoodResponse(tx, RecordAt(m, key, tx));
    }
    FoldsToFilter(tx.status, f.status);
    FoldsToFilter(tx.payload.response.details.paymentSystem, f.paymentSystem);
  }

  /** The limit of a report: 100 unless asked for, never more than 500. */
  lemma LimitOfReport(f: Filter)
    ensures NormalizedFilter(f).limit == if 1 <= f.limit <= 500 then f.limit else if f.limit > 500 then 500 else 100
    ensures NormalizedFilter(f).dateFrom == f.dateFrom && NormalizedFilter(f).dateTo == f.dateTo
  {
    hide Trim, Upper;
  }

  /** An item shows the stored payment: its ids and status, amount, method and provider's part, and both times. */
  lemma ItemShowsPayment(t: Transactions, merchantID: string, key: string)
    requires GoodStore(t) && key in t.byPaymentID && InScope(key, merchantID)
    ensures var tx := t.byPaymentID[key];
            var r, item := tx.payload.response, ItemOf(RecordAt(merchantID, key, tx));
            && item.status == r.currentStatus && item.amount == r.info.amount && item.paymentMethod == r.info.methodType
            && item.paymentSystem == r.details.paymentSystem && item.providerStatus == r.details.providerStatus
            && item.externalTransactionID == r.details.externalTransactionID
            && item.fraudCheckResult == r.details.fraudCheckResult
            && item.createdAt == (if tx.createdAt == ZERO_TIME then tx.updatedAt else tx.createdAt)
            && item.updatedAt == tx.updatedAt
            && (!Blank(r.id) ==> item.paymentID == Trim(r.id))
            && (!Blank(r.idempotencyKey) ==> item.idempotencyKey == Trim(r.idempotencyKey))
  {
    var tx := t.byPaymentID[key];
    assert GoodTx(tx);
    GoodStatusesAreTrimmed(tx.payload.response);
    GoodResponse(tx, RecordAt(merchantID, key, tx));
    hide GoodStore, GoodTx, Trim, ResponseOf, ErrorFits;
  }

  /** A record whose text cannot be decoded is still listed, by its columns and without an amount. */
  lemma UndecodedItem(r: Record)
    requires r.payload == NoText || r.payload == Malformed
    ensures var item := ItemOf(r);
            && item.paymentID == Trim(r.paymentID) && item.idempotencyKey == Trim(r.idempotencyKey)
            && item.status == Trim(r.status) && item.amount == Money(0.0, "") && item.paymentMethod == ""
            && item.paymentSystem == "" && item.createdAt == r.createdAt && item.updatedAt == r.updatedAt
  {
    hide Trim, FirstNonBlankTrimmed, ResponseOf;
    UndecodedResponse(r);
    OneText(r.paymentID);
    OneText(r.idempotencyKey);
    OneText(r.status);
  }

  lemma UndecodedResponse(r: Record)
    requires r.payload == NoText || r.payload == Malformed
    ensures var resp := ResponseOf(r);
            && resp.id == r.paymentID && resp.idempotencyKey == r.idempotencyKey && resp.currentStatus == r.status
            && resp.info.amount == Money(0.0, "") && resp.info.methodType == "" && resp.details.paymentSystem == ""
  {
  }

  lemma OneText(s: string)
    ensures FirstNonBlankTrimmed(s, s) == Trim(s)
  {
    assert Trim("") == "";
    hide Trim;
  }

  // ---------- Newest first ----------

  predicate NewestFirst(s: seq<Record>) {
    forall i, j :: 0 <= i < j < |s| ==> s[i].createdAt >= s[j].createdAt
  }

  /** The first `n` records are in order and no later one is newer than any of them. */
  predicate OrderedUpTo(s: seq<Record>, n: nat)
    requires n <= |s|
  {
    forall p, q :: 0 <= p < n && p < q < |s| ==> s[p].createdAt >= s[q].createdAt
  }

  lemma {:induction false} SwapKeepsMultiset(s: seq<Record>, i: nat, j: nat)
    requires i < j < |s|
    ensures multiset(s[i := s[j]][j := s[i]]) == multiset(s)
  {
    var a, b, c := s[..i], s[i + 1..j], s[j + 1..];
    assert s == a + [s[i]] + b + [s[j]] + c;
    assert s[i := s[j]][j := s[i]] == a + [s[j]] + b + [s[i]] + c;
  }

  /** The record at `i` is not older than those looked at so far. */
  predicate NewestUpTo(s: seq<Record>, i: nat, j: nat)
    requires i < j <= |s|
  {
    forall q :: i < q < j ==> s[i].createdAt >= s[q].createdAt
  }

  /** Swapping in a newer record keeps the order reached so far. */
  lemma SwapKeepsOrder(s: seq<Record>, i: nat, j: nat)
    requires i < j < |s| && OrderedUpTo(s, i) && NewestUpTo(s, i, j) && s[j].createdAt > s[i].createdAt
    ensures OrderedUpTo(s[i := s[j]][j := s[i]], i) && NewestUpTo(s[i := s[j]][j := s[i]], i, j + 1)
  {
  }

  lemma PassIsComplete(s: seq<Record>, i: nat)
    requires i < |s| && OrderedUpTo(s, i) && NewestUpTo(s, i, |s|)
    ensures OrderedUpTo(s, i + 1)
  {
  }

  method Exchange(records: array<Record>, i: nat, j: nat)
    requires i < j < records.Length
    modifies records
    ensures records[..] == old(records[..])[i := old(records[j])][j := old(records[i])]
    ensures multiset(records[..]) == multiset(old(records[..]))
  {
    SwapKeepsMultiset(records[..], i, j);
    records[i], records[j] := records[j], records[i];
  }

  /** The exchange sort: every later record is compared with the one at `i` and swapped in if newer. */
  method SortReportRecords(records: array<Record>)
    modifies records
    ensures NewestFirst(records[..]) && multiset(records[..]) == multiset(old(records[..]))
  {
    for i := 0 to records.Length
      invariant multiset(records[..]) == multiset(old(records[..]))
      invariant OrderedUpTo(records[..], i)
    {
      SelectNewest(records, i);
    }
  }

  /** One pass of the outer loop. */
  method SelectNewest(records: array<Record>, i: nat)
    requires i < records.Length && OrderedUpTo(records[..], i)
    modifies records
    ensures multiset(records[..]) == multiset(old(records[..]))
    ensures OrderedUpTo(records[..], i + 1)
  {
    for j := i + 1 to records.Length
      invariant multiset(records[..]) == multiset(old(records[..]))
      invariant OrderedUpTo(records[..], i)
      invariant NewestUpTo(records[..], i, j)
    {
      if records[j].createdAt > records[i].createdAt {
        SwapKeepsOrder(records[..], i, j);
        Exchange(records, i, j);
      }
    }
    PassIsComplete(records[..], i);
  }

  predicate NoDuplicates(s: seq<Record>) {
    forall i, j :: 0 <= i < j < |s| ==> s[i] != s[j]
  }

  /** `kept` is a newest-first list of the `limit` newest records of `all`. */
  ghost predicate NewestOf(kept: seq<Record>, all: set<Record>, limit: nat) {
    && |kept| == (if |all| <= limit then |all| else limit)
    && NoDuplicates(kept) && NewestFirst(kept)
    && (forall r :: r in kept ==> r in all)
    && (forall dropped, r :: dropped in all && dropped !in kept && r in kept ==> dropped.createdAt <= r.createdAt)
  }

  lemma {:induction false} DistinctCount(s: seq<Record>)
    requires NoDuplicates(s)
    ensures |set r | r in s| == |s|
  {
    if s != [] {
      var n := |s| - 1;
      DistinctCount(s[..n]);
      assert s == s[..n] + [s[n]];
      assert (set r | r in s) == (set r | r in s[..n]) + {s[n]};
    } else {
      assert (set r | r in s) == {};
    }
  }

  lemma PermutationKeepsDistinct(a: seq<Record>, b: seq<Record>)
    requires NoDuplicates(a) && multiset(a) == multiset(b)
    ensures NoDuplicates(b) && |a| == |b| && forall r :: r in a <==> r in b
  {
    assert |a| == |multiset(a)| == |multiset(b)| == |b|;
    forall r ensures r in a <==> r in b {
      assert (r in a <==> r in multiset(a)) && (r in b <==> r in multiset(b));
    }
    forall i, j | 0 <= i < j < |b| ensures b[i] != b[j] {
      AtMostOnce(a, b[i]);
      if b[i] == b[j] { TwiceCounted(b, i, j); }
    }
  }

  lemma {:induction false} AtMostOnce(s: seq<Record>, r: Record)
    requires NoDuplicates(s)
    ensures multiset(s)[r] <= 1
  {
    if s != [] {
      var n := |s| - 1;
      AtMostOnce(s[..n], r);
      assert s == s[..n] + [s[n]];
      assert s[n] !in s[..n];
      assert multiset(s)[r] == multiset(s[..n])[r] + multiset([s[n]])[r];
    }
  }

  lemma TwiceCounted(s: seq<Record>, i: nat, j: nat)
    requires i < j < |s| && s[i] == s[j]
    ensures multiset(s)[s[i]] >= 2
  {
    assert s == s[..i] + [s[i]] + s[i + 1..j] + [s[j]] + s[j + 1..];
  }

  lemma TruncatedIsNewest(sorted: seq<Record>, all: set<Record>, limit: nat)
    requires NoDuplicates(sorted) && NewestFirst(sorted) && all == set r | r in sorted
    ensures NewestOf(if |sorted| > limit then sorted[..limit] else sorted, all, limit)
  {
    DistinctCount(sorted);
    if |sorted| > limit {
      PrefixIsNewest(sorted, limit);
    }
  }

  lemma PrefixIsNewest(sorted: seq<Record>, limit: nat)
    requires NoDuplicates(sorted) && NewestFirst(sorted) && limit <= |sorted|
    ensures var kept := sorted[..limit];
            && NoDuplicates(kept) && NewestFirst(kept) && (forall r :: r in kept ==> r in sorted)
            && forall dropped, r :: dropped in sorted && dropped !in kept && r in kept ==>
                 dropped.createdAt <= r.createdAt
  {
    var kept := sorted[..limit];
    assert forall k :: 0 <= k < limit ==> sorted[k] == kept[k] && sorted[k] in kept;
    forall dropped, r | dropped in sorted && dropped !in kept && r in kept ensures dropped.createdAt <= r.createdAt {
      var d :| 0 <= d < |sorted| && sorted[d] == dropped;
      var i :| 0 <= i < |kept| && kept[i] == r;
      assert sorted[i] == r && i < limit <= d;
    }
  }

  /** Collect in whatever order the map is walked, sort, truncate. */
  method NewestRecords(store: InMemoryTransactionStore, f: Filter) returns (kept: seq<Record>)
    requires f.limit > 0
    ensures NewestOf(kept, SelectedRecords(store.State(), f), f.limit)
  {
    var records := CollectRecords(store, f);
    var a := new Record[|records|](i requires 0 <= i < |records| => records[i]);
    assert a[..] == records;
    SortReportRecords(a);
    PermutationKeepsDistinct(records, a[..]);
    TruncatedIsNewest(a[..], SelectedRecords(store.State(), f), f.limit);
    kept := if a.Length > f.limit then a[..f.limit] else a[..];
  }

  method CollectRecords(store: InMemoryTransactionStore, f: Filter) returns (records: seq<Record>)
    ensures NoDuplicates(records)
    ensures SelectedRecords(store.State(), f) == set r | r in records
  {
    hide Matches;
    var t := store.State();
    var todo := t.byPaymentID.Keys;
    ghost var done: set<string> := {};
    records := [];
    while todo != {}
      invariant todo + done == t.byPaymentID.Keys && todo !! done
      invariant NoDuplicates(records)
      invariant forall r :: r in records <==>
                  exists key :: key in done && Selected(t, f, key)
                                && r == RecordAt(f.merchantID, key, t.byPaymentID[key])
      decreases |todo|
    {
      var key :| key in todo;
      todo := todo - {key};
      var tx := t.byPaymentID[key];
      if InScope(key, f.merchantID) && Matches(RecordAt(f.merchantID, key, tx), f) {
        var record := RecordAt(f.merchantID, key, tx);
        forall other | other in done && Selected(t, f, other)
          ensures RecordAt(f.merchantID, other, t.byPaymentID[other]) != record
        {
          if RecordAt(f.merchantID, other, t.byPaymentID[other]) == record {
            SameTailSameKey(f.merchantID, key, other);
          }
        }
        assert record !in records;
        records := records + [record];
      }
      done := done + {key};
    }
  }

  lemma SameTailSameKey(merchantID: string, a: string, b: string)
    requires InScope(a, merchantID) && InScope(b, merchantID) && a[|merchantID| + 1..] == b[|merchantID| + 1..]
    ensures a == b
  {
    var n := |merchantID| + 1;
    assert a == a[..n] + a[n..] && b == b[..n] + b[n..];
  }

}
