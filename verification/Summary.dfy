/** The summary of a transaction report and the conservation of its counts and amounts
    (internal/subsystems/storage/reporting.go). */
module Summary {
  import opened Text
  import opened Payments
  import opened Store
  import opened Reporting

  datatype Bucket = Bucket(count: nat, amount: real)
  type Buckets = map<string, Bucket>
  datatype Dimension = ByStatus | BySystem | ByMethod
  datatype Class = InCaptured | InPending | InDeclined | InFailed | InNone

  function KeyOf(dim: Dimension, item: ReportItem): string {
    FirstNonBlankTrimmed(
      match dim case ByStatus => item.status case BySystem => item.paymentSystem case ByMethod => item.paymentMethod,
      "UNKNOWN")
  }

  function ClassOf(status: string): Class {
    var s := Upper(status);
    if s == CAPTURED then InCaptured
    else if s == PENDING || s == CAPTURE_REQUESTED then InPending
    else if s == DECLINED || s == CANCELLED then InDeclined
    else if s == FAILED then InFailed
    else InNone
  }

  // ---------- What a list of items amounts to ----------

  function Total(items: seq<ReportItem>): real {
    if items == [] then 0.0 else Total(items[..|items| - 1]) + items[|items| - 1].amount.value
  }

  function CountClass(items: seq<ReportItem>, class_: Class): nat {
    if items == [] then 0
    else CountClass(items[..|items| - 1], class_)
         + if ClassOf(KeyOf(ByStatus, items[|items| - 1])) == class_ then 1 else 0
  }

  function AmountClass(items: seq<ReportItem>, class_: Class): real {
    if items == [] then 0.0
    else AmountClass(items[..|items| - 1], class_)
         + if ClassOf(KeyOf(ByStatus, items[|items| - 1])) == class_ then items[|items| - 1].amount.value else 0.0
  }

  /** The items whose key is one of `keys`. */
  function CountWith(items: seq<ReportItem>, dim: Dimension, keys: set<string>): nat {
    if items == [] then 0
    else CountWith(items[..|items| - 1], dim, keys) + if KeyOf(dim, items[|items| - 1]) in keys then 1 else 0
  }

  function AmountWith(items: seq<ReportItem>, dim: Dimension, keys: set<string>): real {
    if items == [] then 0.0
    else AmountWith(items[..|items| - 1], dim, keys)
         + if KeyOf(dim, items[|items| - 1]) in keys then items[|items| - 1].amount.value else 0.0
  }

  // ---------- Buckets ----------

  function Incremented(b: Buckets, key: string, amount: real): Buckets {
    b[key := if key in b then Bucket(b[key].count + 1, b[key].amount + amount) else Bucket(1, amount)]
  }

  function BucketsOf(items: seq<ReportItem>, dim: Dimension): Buckets {
    if items == [] then map[]
    else
      var last := items[|items| - 1];
      Incremented(BucketsOf(items[..|items| - 1], dim), KeyOf(dim, last), last.amount.value)
  }

  /** The sum of the buckets whose keys are in `keys`. */
  ghost function SumCount(b: Buckets, keys: set<string>): nat {
    if keys == {} then 0
    else var k :| k in keys; (if k in b then b[k].count else 0) + SumCount(b, keys - {k})
  }

  ghost function SumAmount(b: Buckets, keys: set<string>): real {
    if keys == {} then 0.0
    else var k :| k in keys; (if k in b then b[k].amount else 0.0) + SumAmount(b, keys - {k})
  }

  /** Any key can be taken out first. */
  lemma {:induction false} SumTakeOut(b: Buckets, keys: set<string>, k: string)
    requires k in keys
    ensures SumCount(b, keys) == (if k in b then b[k].count else 0) + SumCount(b, keys - {k})
    ensures SumAmount(b, keys) == (if k in b then b[k].amount else 0.0) + SumAmount(b, keys - {k})
    decreases keys
  {
    var c := PickedCount(b, keys);
    if c != k {
      SumTakeOut(b, keys - {c}, k);
      SumTakeOut(b, keys - {k}, c);
      assert keys - {c} - {k} == keys - {k} - {c};
    }
    var a := PickedAmount(b, keys);
    if a != k {
      SumTakeOut(b, keys - {a}, k);
      SumTakeOut(b, keys - {k}, a);
      assert keys - {a} - {k} == keys - {k} - {a};
    }
  }

  lemma PickedCount(b: Buckets, keys: set<string>) returns (k: string)
    requires keys != {}
    ensures k in keys && SumCount(b, keys) == (if k in b then b[k].count else 0) + SumCount(b, keys - {k})
  {
    k :| k in keys && SumCount(b, keys) == (if k in b then b[k].count else 0) + SumCount(b, keys - {k});
  }

  lemma PickedAmount(b: Buckets, keys: set<string>) returns (k: string)
    requires keys != {}
    ensures k in keys && SumAmount(b, keys) == (if k in b then b[k].amount else 0.0) + SumAmount(b, keys - {k})
  {
    k :| k in keys && SumAmount(b, keys) == (if k in b then b[k].amount else 0.0) + SumAmount(b, keys - {k});
  }

  lemma {:induction false} SumElsewhere(b: Buckets, key: string, amount: real, keys: set<string>)
    requires key !in keys
    ensures SumCount(Incremented(b, key, amount), keys) == SumCount(b, keys)
    ensures SumAmount(Incremented(b, key, amount), keys) == SumAmount(b, keys)
  {
    if keys != {} {
      var k :| k in keys;
      SumElsewhere(b, key, amount, keys - {k});
      SumTakeOut(b, keys, k);
      SumTakeOut(Incremented(b, key, amount), keys, k);
    } else {
      assert SumCount(b, keys) == 0 && SumAmount(b, keys) == 0.0;
    }
  }

  lemma SumOfIncremented(b: Buckets, key: string, amount: real, keys: set<string>)
    ensures SumCount(Incremented(b, key, amount), keys) == SumCount(b, keys) + if key in keys then 1 else 0
    ensures SumAmount(Incremented(b, key, amount), keys) == SumAmount(b, keys) + if key in keys then amount else 0.0
  {
    if key in keys {
      SumTakeOut(b, keys, key);
      SumTakeOut(Incremented(b, key, amount), keys, key);
      SumElsewhere(b, key, amount, keys - {key});
    } else {
      SumElsewhere(b, key, amount, keys);
    }
  }

  lemma {:induction false} SumOfNothing(keys: set<string>)
    ensures SumCount(map[], keys) == 0 && SumAmount(map[], keys) == 0.0
  {
    if keys != {} {
      var k :| k in keys;
      SumOfNothing(keys - {k});
      SumTakeOut(map[], keys, k);
    }
  }

  /** Over any set of keys, the buckets hold exactly the items with those keys. */
  lemma {:induction false} BucketsHoldItems(items: seq<ReportItem>, dim: Dimension, keys: set<string>)
    ensures SumCount(BucketsOf(items, dim), keys) == CountWith(items, dim, keys)
    ensures SumAmount(BucketsOf(items, dim), keys) == AmountWith(items, dim, keys)
  {
    if items == [] {
      SumOfNothing(keys);
    } else {
      var n := |items| - 1;
      BucketsHoldItems(items[..n], dim, keys);
      SumOfIncremented(BucketsOf(items[..n], dim), KeyOf(dim, items[n]), items[n].amount.value, keys);
    }
  }

  lemma {:induction false} BucketsCoverKeys(items: seq<ReportItem>, dim: Dimension)
    ensures forall item :: item in items ==> KeyOf(dim, item) in BucketsOf(items, dim)
  {
    if items != [] {
      var n := |items| - 1;
      BucketsCoverKeys(items[..n], dim);
      assert items == items[..n] + [items[n]];
    }
  }

  lemma {:induction false} AllItemsCounted(items: seq<ReportItem>, dim: Dimension, keys: set<string>)
    requires forall item :: item in items ==> KeyOf(dim, item) in keys
    ensures CountWith(items, dim, keys) == |items| && AmountWith(items, dim, keys) == Total(items)
  {
    if items != [] {
      var n := |items| - 1;
      assert items == items[..n] + [items[n]];
      AllItemsCounted(items[..n], dim, keys);
    }
  }

  // ---------- Totals ----------

  datatype Totals = Totals(
    totalCount: nat, totalAmount: real, capturedCount: nat, capturedAmount: real, pendingCount: nat, declinedCount: nat,
    failedCount: nat, averageAmount: real, byStatus: Buckets, byPaymentSystem: Buckets, byPaymentMethod: Buckets)

  /** The counters and the bucket maps are those of the items; the average is set at the end. */
  predicate Counts(t: Totals, items: seq<ReportItem>) {
    && t.totalCount == |items| && t.totalAmount == Total(items)
    && t.capturedCount == CountClass(items, InCaptured) && t.capturedAmount == AmountClass(items, InCaptured)
    && t.pendingCount == CountClass(items, InPending) && t.declinedCount == CountClass(items, InDeclined)
    && t.failedCount == CountClass(items, InFailed)
    && t.byStatus == BucketsOf(items, ByStatus) && t.byPaymentSystem == BucketsOf(items, BySystem)
    && t.byPaymentMethod == BucketsOf(items, ByMethod)
  }

  predicate Summarises(t: Totals, items: seq<ReportItem>) {
    Counts(t, items) && t.averageAmount == if |items| > 0 then Total(items) / |items| as real else 0.0
  }

  function BucketMap(t: Totals, dim: Dimension): Buckets {
    match dim case ByStatus => t.byStatus case BySystem => t.byPaymentSystem case ByMethod => t.byPaymentMethod
  }

  /** In each of the three bucket maps the counts and the amounts add up to the totals. */
  lemma BucketsConserve(t: Totals, items: seq<ReportItem>, dim: Dimension)
    requires Counts(t, items)
    ensures SumCount(BucketMap(t, dim), BucketMap(t, dim).Keys) == t.totalCount
    ensures SumAmount(BucketMap(t, dim), BucketMap(t, dim).Keys) == t.totalAmount
  {
    var keys := BucketMap(t, dim).Keys;
    BucketsHoldItems(items, dim, keys);
    BucketsCoverKeys(items, dim);
    AllItemsCounted(items, dim, keys);
  }

  /** One bucket holds exactly the items with its key. */
  lemma BucketIsItsItems(t: Totals, items: seq<ReportItem>, dim: Dimension, key: string)
    requires Counts(t, items) && key in BucketMap(t, dim)
    ensures BucketMap(t, dim)[key] == Bucket(CountWith(items, dim, {key}), AmountWith(items, dim, {key}))
  {
    BucketsHoldItems(items, dim, {key});
    SumTakeOut(BucketMap(t, dim), {key}, key);
    assert {key} - {key} == {};
  }

  /** The four class counters and the unclassified items add up to the total. */
  lemma {:induction false} ClassesConserve(items: seq<ReportItem>)
    ensures CountClass(items, InCaptured) + CountClass(items, InPending) + CountClass(items, InDeclined)
            + CountClass(items, InFailed) + CountClass(items, InNone) == |items|
  {
    if items != [] { ClassesConserve(items[..|items| - 1]); }
  }

  lemma {:induction false} CapturedByKey(items: seq<ReportItem>, keys: set<string>)
    requires forall item :: item in items ==>
               (KeyOf(ByStatus, item) in keys <==> Upper(KeyOf(ByStatus, item)) == CAPTURED)
    ensures CountWith(items, ByStatus, keys) == CountClass(items, InCaptured)
    ensures AmountWith(items, ByStatus, keys) == AmountClass(items, InCaptured)
  {
    hide KeyOf;
    if items != [] {
      var n := |items| - 1;
      assert items == items[..n] + [items[n]];
      CapturedByKey(items[..n], keys);
    }
  }

  /** The captured figures are the sums of the status buckets whose key reads CAPTURED in upper case. */
  lemma CapturedIsItsBuckets(t: Totals, items: seq<ReportItem>)
    requires Counts(t, items)
    ensures var keys := set k | k in t.byStatus && Upper(k) == CAPTURED;
            SumCount(t.byStatus, keys) == t.capturedCount && SumAmount(t.byStatus, keys) == t.capturedAmount
  {
    var keys := set k | k in t.byStatus && Upper(k) == CAPTURED;
    BucketsHoldItems(items, ByStatus, keys);
    BucketsCoverKeys(items, ByStatus);
    CapturedByKey(items, keys);
  }

  lemma {:induction false} ClassByKey(items: seq<ReportItem>, keys: set<string>, class_: Class)
    requires forall item :: item in items ==>
               (KeyOf(ByStatus, item) in keys <==> ClassOf(KeyOf(ByStatus, item)) == class_)
    ensures CountWith(items, ByStatus, keys) == CountClass(items, class_)
  {
    hide KeyOf, ClassOf;
    if items != [] {
      var n := |items| - 1;
      assert items == items[..n] + [items[n]];
      ClassByKey(items[..n], keys, class_);
    }
  }

  /** Which statuses, in any capitals, a class counter counts. */
  function StatusesOf(class_: Class): set<string>
    requires class_ != InNone
  {
    match class_
    case InCaptured => {"CAPTURED"}
    case InPending => {"PENDING", "CAPTURE_REQUESTED"}
    case InDeclined => {"DECLINED", "CANCELLED"}
    case InFailed => {"FAILED"}
  }

  lemma ClassHasStatuses(status: string, class_: Class)
    requires class_ != InNone
    ensures ClassOf(status) == class_ <==> Upper(status) in StatusesOf(class_)
  {
    hide Upper;
  }

  function CounterOf(t: Totals, class_: Class): nat
    requires class_ != InNone
  {
    match class_
    case InCaptured => t.capturedCount
    case InPending => t.pendingCount
    case InDeclined => t.declinedCount
    case InFailed => t.failedCount
  }

  /** Each class counter is the sum of the status buckets whose key is one of its statuses. */
  lemma ClassIsItsBuckets(t: Totals, items: seq<ReportItem>, class_: Class)
    requires Counts(t, items) && class_ != InNone
    ensures SumCount(t.byStatus, set k | k in t.byStatus && Upper(k) in StatusesOf(class_)) == CounterOf(t, class_)
  {
    var keys := set k | k in t.byStatus && Upper(k) in StatusesOf(class_);
    BucketsHoldItems(items, ByStatus, keys);
    BucketsCoverKeys(items, ByStatus);
    forall item | item in items
      ensures KeyOf(ByStatus, item) in keys <==> ClassOf(KeyOf(ByStatus, item)) == class_
    {
      ClassHasStatuses(KeyOf(ByStatus, item), class_);
    }
    hide KeyOf, ClassOf, SumCount;
    ClassByKey(items, keys, class_);
  }

  /** An item with a status, a system and a method goes into the buckets of these names, and into no others. */
  lemma ItemGoesIntoItsBuckets(items: seq<ReportItem>, item: ReportItem)
    ensures BucketsOf(items + [item], ByStatus)
            == Incremented(BucketsOf(items, ByStatus), if Blank(item.status) then "UNKNOWN" else Trim(item.status),
                           item.amount.value)
    ensures BucketsOf(items + [item], BySystem)
            == Incremented(BucketsOf(items, BySystem),
                           if Blank(item.paymentSystem) then "UNKNOWN" else Trim(item.paymentSystem), item.amount.value)
    ensures BucketsOf(items + [item], ByMethod)
            == Incremented(BucketsOf(items, ByMethod),
                           if Blank(item.paymentMethod) then "UNKNOWN" else Trim(item.paymentMethod), item.amount.value)
  {
    assert (items + [item])[..|items|] == items;
    assert Trim("UNKNOWN") == "UNKNOWN" && Trim("") == "";
    hide Incremented, Trim;
  }

  lemma AverageTimesCount(t: Totals, items: seq<ReportItem>)
    requires Summarises(t, items)
    ensures t.averageAmount * t.totalCount as real == t.totalAmount
  {
    if items != [] { DivideAndMultiply(t.totalAmount, |items| as real); }
  }

  lemma DivideAndMultiply(x: real, n: real)
    requires n != 0.0
    ensures x / n * n == x
  {
  }

  // ---------- The summary, updated in place ----------

  /** The totals with one more item of a class. */
  function InClass(t: Totals, class_: Class, amount: real): Totals {
    t.(capturedCount := t.capturedCount + (if class_ == InCaptured then 1 else 0),
       capturedAmount := t.capturedAmount + (if class_ == InCaptured then amount else 0.0),
       pendingCount := t.pendingCount + (if class_ == InPending then 1 else 0),
       declinedCount := t.declinedCount + (if class_ == InDeclined then 1 else 0),
       failedCount := t.failedCount + (if class_ == InFailed then 1 else 0))
  }

  /** The totals with one more item. */
  function WithItem(t: Totals, item: ReportItem): Totals {
    var amount := item.amount.value;
    var counted := InClass(t, ClassOf(KeyOf(ByStatus, item)), amount);
    counted.(
      totalCount := t.totalCount + 1, totalAmount := t.totalAmount + amount,
      byStatus := Incremented(t.byStatus, KeyOf(ByStatus, item), amount),
      byPaymentSystem := Incremented(t.byPaymentSystem, KeyOf(BySystem, item), amount),
      byPaymentMethod := Incremented(t.byPaymentMethod, KeyOf(ByMethod, item), amount))
  }

  lemma WithItemCounts(t: Totals, items: seq<ReportItem>, item: ReportItem)
    requires Counts(t, items)
    ensures Counts(WithItem(t, item), items + [item]) && WithItem(t, item).averageAmount == t.averageAmount
  {
    hide Incremented, KeyOf, ClassOf;
    assert (items + [item])[..|items|] == items;
  }

  class ReportSummary {
    var totals: Totals
    ghost var items: seq<ReportItem>

    ghost predicate Valid()
      reads this
    {
      Counts(totals, items) && totals.averageAmount == 0.0
    }

    constructor ()
      ensures Valid() && items == []
    {
      totals := Totals(0, 0.0, 0, 0.0, 0, 0, 0, 0.0, map[], map[], map[]);
      items := [];
    }

    /** The class counters. */
    method CountInClass(class_: Class, amount: real)
      modifies this`totals
      ensures totals == InClass(old(totals), class_, amount)
    {
      match class_ {
        case InCaptured =>
          totals := totals.(capturedCount := totals.capturedCount + 1,
                            capturedAmount := totals.capturedAmount + amount);
        case InPending => totals := totals.(pendingCount := totals.pendingCount + 1);
        case InDeclined => totals := totals.(declinedCount := totals.declinedCount + 1);
        case InFailed => totals := totals.(failedCount := totals.failedCount + 1);
        case InNone =>
      }
    }

    method AddTransaction(item: ReportItem)
      requires Valid()
      modifies this
      ensures Valid() && items == old(items) + [item]
    {
      hide Counts, WithItem;
      WithItemCounts(totals, items, item);
      AddToTotals(item);
      items := items + [item];
    }

    method AddToTotals(item: ReportItem)
      modifies this`totals
      ensures totals == WithItem(old(totals), item)
    {
      hide Incremented, KeyOf, ClassOf;
      var amount, status := item.amount.value, KeyOf(ByStatus, item);
      totals := totals.(totalCount := totals.totalCount + 1, totalAmount := totals.totalAmount + amount);
      CountInClass(ClassOf(status), amount);
      totals := totals.(
        byStatus := Incremented(totals.byStatus, status, amount),
        byPaymentSystem := Incremented(totals.byPaymentSystem, KeyOf(BySystem, item), amount),
        byPaymentMethod := Incremented(totals.byPaymentMethod, KeyOf(ByMethod, item), amount));
    }
  }

  // ---------- The whole report ----------

  datatype Report = Report(filter: Filter, transactions: seq<ReportItem>, summary: Totals)

  function ItemsOf(records: seq<Record>): seq<ReportItem> {
    if records == [] then [] else ItemsOf(records[..|records| - 1]) + [ItemOf(records[|records| - 1])]
  }

  lemma ItemsOfNext(records: seq<Record>, i: nat)
    requires i < |records|
    ensures ItemsOf(records[..i + 1]) == ItemsOf(records[..i]) + [ItemOf(records[i])]
  {
    assert records[..i + 1][..i] == records[..i];
  }

  method SummariseRecords(records: seq<Record>) returns (transactions: seq<ReportItem>, totals: Totals)
    ensures transactions == ItemsOf(records) && Summarises(totals, transactions)
  {
    var summary := new ReportSummary();
    transactions := [];
    for i := 0 to |records|
      invariant summary.Valid() && summary.items == transactions && fresh(summary)
      invariant transactions == ItemsOf(records[..i])
    {
      ItemsOfNext(records, i);
      var item := ItemOf(records[i]);
      transactions := transactions + [item];
      summary.AddTransaction(item);
    }
    assert records[..|records|] == records;
    totals := summary.totals;
    if totals.totalCount > 0 {
      totals := totals.(averageAmount := totals.totalAmount / totals.totalCount as real);
    }
  }

  /** The report lists the newest matching transactions and summarises exactly those. */
  method BuildTransactionReport(store: InMemoryTransactionStore, filter: Filter) returns (report: Outcome<Report>)
    ensures report.Err? <==> Blank(filter.merchantID)
    ensures report.Ok? ==>
              var f := NormalizedFilter(filter);
              && report.value.filter == f
              && Summarises(report.value.summary, report.value.transactions)
              && exists records :: NewestOf(records, SelectedRecords(store.State(), f), f.limit)
                                   && report.value.transactions == ItemsOf(records)
  {
    var f := NormalizedFilter(filter);
    if f.merchantID == "" {
      return Err("merchant_id is required");
    }
    var records := NewestRecords(store, f);
    var transactions, totals := SummariseRecords(records);
    return Ok(Report(f, transactions, totals));
  }
}
