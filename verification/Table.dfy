/** The single transaction table (internal/subsystems/storage/postgres_store.go) as the
    specification that the two in-memory indexes refine. */
module Table {
  import opened Text
  import opened Payments
  import opened Store

  /** A row, found by its unique (merchant_id, idempotency_key). */
  datatype Row = Row(paymentID: string, status: string, payload: Payload, updatedAt: Time, createdAt: Time)

  type Rows = map<(string, string), Row>

  /** INSERT ... ON CONFLICT (merchant_id, idempotency_key) DO UPDATE: a new row is stamped by the
      database's own clock, and created_at is never updated. */
  function Upsert(rows: Rows, c: SaveCall, databaseNow: Time): Rows {
    if !Accepted(c) then rows
    else
      var at := (c.merchantID, c.idempotencyKey);
      var payload := if c.payload == NoText then EmptyObject else SanitizePayload(c.payload);
      rows[at := Row(c.paymentID, c.status, payload, c.updatedAt,
                     if at in rows then rows[at].createdAt else databaseNow)]
  }

  /** The reading of the database's clock at each save. */
  type Clock = nat -> Time

  // ---------- Histories ----------

  function Saves(history: seq<SaveCall>): Transactions {
    if history == [] then NO_TRANSACTIONS else SaveStep(Saves(history[..|history| - 1]), history[|history| - 1])
  }

  function Upserts(history: seq<SaveCall>, clock: Clock): Rows {
    if history == [] then map[]
    else var n := |history| - 1; Upsert(Upserts(history[..n], clock), history[n], clock(n))
  }

  predicate ColonFree(history: seq<SaveCall>) {
    forall i :: 0 <= i < |history| ==> ':' !in history[i].merchantID
  }

  predicate StrictlyIncreasing(history: seq<SaveCall>) {
    forall i, j :: 0 <= i < j < |history| ==> history[i].updatedAt < history[j].updatedAt
  }

  predicate ByKey(c: SaveCall, m: string, k: string) {
    Accepted(c) && c.merchantID == m && c.idempotencyKey == k
  }

  predicate ByPayment(c: SaveCall, m: string, p: string) {
    Accepted(c) && c.merchantID == m && c.paymentID == p
  }

  /** The last accepted save under the key, or -1. */
  function LastByKey(history: seq<SaveCall>, m: string, k: string): (i: int)
    ensures -1 <= i < |history|
    ensures i >= 0 ==> ByKey(history[i], m, k)
    ensures forall j :: i < j < |history| ==> !ByKey(history[j], m, k)
  {
    if history == [] then -1
    else if ByKey(history[|history| - 1], m, k) then |history| - 1
    else LastByKey(history[..|history| - 1], m, k)
  }

  /** The last accepted save of the payment, or -1. */
  function LastByPayment(history: seq<SaveCall>, m: string, p: string): (i: int)
    ensures -1 <= i < |history|
    ensures i >= 0 ==> ByPayment(history[i], m, p)
    ensures forall j :: i < j < |history| ==> !ByPayment(history[j], m, p)
  {
    if history == [] then -1
    else if ByPayment(history[|history| - 1], m, p) then |history| - 1
    else LastByPayment(history[..|history| - 1], m, p)
  }

  predicate Carries(tx: StoredTx, c: SaveCall) {
    tx.status == c.status && tx.payload == SanitizePayload(c.payload)
    && tx.idempotencyKey == c.idempotencyKey && tx.updatedAt == c.updatedAt
  }

  lemma {:induction false} MemoryByKey(history: seq<SaveCall>, m: string, k: string)
    requires ColonFree(history) && ':' !in m
    ensures var i, found := LastByKey(history, m, k), FindByKey(Saves(history), m, k);
            (found.Some? <==> i >= 0) && (found.Some? ==> Carries(found.value, history[i]))
  {
    if history != [] {
      var c := history[|history| - 1];
      MemoryByKey(history[..|history| - 1], m, k);
      CompositeInjective(c.merchantID, c.idempotencyKey, m, k);
    }
  }

  lemma {:induction false} MemoryByPayment(history: seq<SaveCall>, m: string, p: string)
    requires ColonFree(history) && ':' !in m && p != ""
    ensures var i, found := LastByPayment(history, m, p), FindByPayment(Saves(history), m, p);
            (found.Some? <==> i >= 0) && (found.Some? ==> Carries(found.value, history[i]))
  {
    if history != [] {
      var c := history[|history| - 1];
      MemoryByPayment(history[..|history| - 1], m, p);
      CompositeInjective(c.merchantID, c.paymentID, m, p);
    }
  }

  lemma {:induction false} TableByKey(history: seq<SaveCall>, clock: Clock, m: string, k: string)
    ensures var i, rows := LastByKey(history, m, k), Upserts(history, clock);
            && ((m, k) in rows <==> i >= 0)
            && (i >= 0 ==>
                  var row, c := rows[(m, k)], history[i];
                  && row.paymentID == c.paymentID && row.status == c.status && row.updatedAt == c.updatedAt
                  && row.payload == if c.payload == NoText then EmptyObject else SanitizePayload(c.payload))
  {
    if history != [] {
      TableByKey(history[..|history| - 1], clock, m, k);
    }
  }

  // ---------- Lookup by idempotency key ----------

  /** What a lookup returns, with the key of the record it came from. */
  datatype Answer = Answer(idempotencyKey: string, status: string, payload: Payload)

  function MemoryAnswer(found: Option<StoredTx>): Option<Answer> {
    match found
    case None => None
    case Some(tx) => Some(Answer(tx.idempotencyKey, tx.status, tx.payload))
  }

  function RowAnswer(k: string, row: Row): Answer {
    Answer(k, row.status, row.payload)
  }

  function TableAnswerByKey(rows: Rows, m: string, k: string): Option<Answer> {
    if (m, k) in rows then Some(RowAnswer(k, rows[(m, k)])) else None
  }

  /** The index by key answers as the table does, whatever was saved, exactly as long as the key's
      last save had a text (the table turns empty text into `{}`). */
  lemma KeyLookupRefines(history: seq<SaveCall>, clock: Clock, m: string, k: string)
    requires ColonFree(history) && ':' !in m
    ensures var i := LastByKey(history, m, k);
            MemoryAnswer(FindByKey(Saves(history), m, k)) == TableAnswerByKey(Upserts(history, clock), m, k)
            <==> (i >= 0 ==> history[i].payload != NoText)
  {
    MemoryByKey(history, m, k);
    TableByKey(history, clock, m, k);
  }

  // ---------- Lookup by payment id ----------

  /** WHERE merchant_id = m AND payment_id = p */
  predicate RowOf(rows: Rows, m: string, p: string, k: string) {
    (m, k) in rows && rows[(m, k)].paymentID == p
  }

  /** ORDER BY updated_at DESC LIMIT 1: the answers the query may give. */
  ghost predicate TableAnswersByPayment(rows: Rows, m: string, p: string, answer: Option<Answer>) {
    match answer
    case None => forall k :: !RowOf(rows, m, p, k)
    case Some(a) =>
      && RowOf(rows, m, p, a.idempotencyKey)
      && a == RowAnswer(a.idempotencyKey, rows[(m, a.idempotencyKey)])
      && forall k :: RowOf(rows, m, p, k) ==> rows[(m, k)].updatedAt <= rows[(m, a.idempotencyKey)].updatedAt
  }

  /** The payment's last save had a text, and its key was not saved again under another payment. */
  predicate KeptItsKey(history: seq<SaveCall>, m: string, p: string) {
    var j := LastByPayment(history, m, p);
    j >= 0 ==>
      && history[j].payload != NoText
      && var i := LastByKey(history, m, history[j].idempotencyKey); i >= 0 && history[i].paymentID == p
  }

  /** A row of the payment is no newer than the payment's last save, and as new only if it is that save. */
  lemma RowsAreNoNewer(history: seq<SaveCall>, clock: Clock, m: string, p: string, k: string)
    requires StrictlyIncreasing(history) && RowOf(Upserts(history, clock), m, p, k)
    ensures var i, j := LastByKey(history, m, k), LastByPayment(history, m, p);
            0 <= i <= j && (i == j <==> history[j].idempotencyKey == k)
            && (i < j ==> Upserts(history, clock)[(m, k)].updatedAt < history[j].updatedAt)
  {
    TableByKey(history, clock, m, k);
    var i, j := LastByKey(history, m, k), LastByPayment(history, m, p);
    assert ByPayment(history[i], m, p);
    assert history[j].idempotencyKey == k ==> ByKey(history[j], m, k);
  }

  /** The record found in memory is a row of the payment, with the same text, exactly if the payment kept its key. */
  lemma KeptIsCurrent(history: seq<SaveCall>, clock: Clock, m: string, p: string)
    requires ColonFree(history) && ':' !in m && p != ""
    ensures var rows, found := Upserts(history, clock), FindByPayment(Saves(history), m, p);
            KeptItsKey(history, m, p)
            <==> (found.Some? ==> RowOf(rows, m, p, found.value.idempotencyKey) && found.value.payload != NoText)
  {
    MemoryByPayment(history, m, p);
    var j := LastByPayment(history, m, p);
    if j >= 0 {
      TableByKey(history, clock, m, history[j].idempotencyKey);
    }
  }

  /** The index by payment answers as the table does exactly when the payment kept its key. */
  lemma PaymentLookupRefines(history: seq<SaveCall>, clock: Clock, m: string, p: string)
    requires ColonFree(history) && ':' !in m && p != ""
    requires StrictlyIncreasing(history)
    ensures TableAnswersByPayment(Upserts(history, clock), m, p, MemoryAnswer(FindByPayment(Saves(history), m, p)))
            <==> KeptItsKey(history, m, p)
  {
    var rows, found := Upserts(history, clock), FindByPayment(Saves(history), m, p);
    MemoryByPayment(history, m, p);
    KeptIsCurrent(history, clock, m, p);
    forall k | RowOf(rows, m, p, k)
      ensures found.Some? && rows[(m, k)].updatedAt <= history[LastByPayment(history, m, p)].updatedAt
      ensures found.Some? && (found.value.idempotencyKey == k ==>
                rows[(m, k)].updatedAt == history[LastByPayment(history, m, p)].updatedAt
                && rows[(m, k)].status == found.value.status
                && (rows[(m, k)].payload == found.value.payload <==> found.value.payload != NoText))
    {
      RowsAreNoNewer(history, clock, m, p, k);
      TableByKey(history, clock, m, k);
    }
  }

  /** A key saved for payment `p1` and then for `p2`: memory still answers for `p1`, the table has no such row. */
  lemma MovedKeyIsStale(m: string, k: string, p1: string, p2: string, status: string, now: Time, clock: Clock)
    requires m != "" && ':' !in m && k != "" && p1 != "" && p1 != p2
    ensures var history := [SaveCall(m, p1, k, status, EmptyObject, now),
                            SaveCall(m, p2, k, status, EmptyObject, now + 1)];
            && FindByPayment(Saves(history), m, p1).Some?
            && TableAnswersByPayment(Upserts(history, clock), m, p1, None)
            && !KeptItsKey(history, m, p1)
  {
    var first, second := SaveCall(m, p1, k, status, EmptyObject, now), SaveCall(m, p2, k, status, EmptyObject, now + 1);
    var history := [first, second];
    assert history[..1] == [first];
    assert ByKey(history[1], m, k) && !ByPayment(history[1], m, p1) && ByPayment([first][0], m, p1);
    MemoryByPayment(history, m, p1);
    forall other ensures !RowOf(Upserts(history, clock), m, p1, other) {
      TableByKey(history, clock, m, other);
    }
  }

  lemma TableAnswerIsUnique(
    history: seq<SaveCall>, clock: Clock, m: string, p: string, a: Option<Answer>, b: Option<Answer>)
    requires StrictlyIncreasing(history)
    requires TableAnswersByPayment(Upserts(history, clock), m, p, a)
    requires TableAnswersByPayment(Upserts(history, clock), m, p, b)
    ensures a == b
  {
    if a.Some? && b.Some? {
      TableByKey(history, clock, m, a.value.idempotencyKey);
      TableByKey(history, clock, m, b.value.idempotencyKey);
      var i, j := LastByKey(history, m, a.value.idempotencyKey), LastByKey(history, m, b.value.idempotencyKey);
      assert history[i].updatedAt == history[j].updatedAt;
    }
  }

  /** No key is ever saved again under another payment. */
  predicate KeysKeepTheirPayment(history: seq<SaveCall>) {
    forall i, j :: 0 <= i < j < |history| && history[i].merchantID == history[j].merchantID
                   && history[i].idempotencyKey == history[j].idempotencyKey
                   ==> history[i].paymentID == history[j].paymentID
  }

  lemma KeptPayment(history: seq<SaveCall>, m: string, k: string, j: nat)
    requires KeysKeepTheirPayment(history)
    requires j < |history| && ByKey(history[j], m, k)
    ensures 0 <= LastByKey(history, m, k)
    ensures history[LastByKey(history, m, k)].paymentID == history[j].paymentID
  {
    var i := LastByKey(history, m, k);
    assert i >= j;
  }

  /** So both lookups refine the table on every history that saves texts and keeps keys with their payments. */
  lemma StoreRefinesTable(history: seq<SaveCall>, clock: Clock, m: string, k: string, p: string)
    requires ColonFree(history) && ':' !in m && p != ""
    requires StrictlyIncreasing(history) && KeysKeepTheirPayment(history)
    requires forall i :: 0 <= i < |history| ==> history[i].payload != NoText
    ensures MemoryAnswer(FindByKey(Saves(history), m, k)) == TableAnswerByKey(Upserts(history, clock), m, k)
    ensures TableAnswersByPayment(Upserts(history, clock), m, p, MemoryAnswer(FindByPayment(Saves(history), m, p)))
  {
    KeyLookupRefines(history, clock, m, k);
    var j := LastByPayment(history, m, p);
    if j >= 0 {
      KeptPayment(history, m, history[j].idempotencyKey, j);
    }
    PaymentLookupRefines(history, clock, m, p);
  }

  // ---------- Creation time ----------

  /** The first accepted save under a composite key that carries a real time; otherwise the last one's. */
  function Stamp(history: seq<SaveCall>, key: string): Time {
    if history == [] then ZERO_TIME
    else
      var earlier, c := Stamp(history[..|history| - 1], key), history[|history| - 1];
      if earlier == ZERO_TIME && Accepted(c) && Composite(c.merchantID, c.idempotencyKey) == key then c.updatedAt
      else earlier
  }

  lemma {:induction false} CreatedAtIsStamp(history: seq<SaveCall>, key: string)
    ensures var t := Saves(history);
            if key in t.byIdempotency then t.byIdempotency[key].createdAt == Stamp(history, key)
            else Stamp(history, key) == ZERO_TIME
  {
    if history != [] { CreatedAtIsStamp(history[..|history| - 1], key); }
  }

  /** Once a key has been saved at a real time, its creation time never changes again. */
  lemma {:induction false} CreatedAtNeverChanges(history: seq<SaveCall>, later: seq<SaveCall>, key: string)
    requires key in Saves(history).byIdempotency && Saves(history).byIdempotency[key].createdAt != ZERO_TIME
    ensures key in Saves(history + later).byIdempotency
    ensures Saves(history + later).byIdempotency[key].createdAt == Saves(history).byIdempotency[key].createdAt
  {
    if later == [] {
      assert history + later == history;
    } else {
      var whole := history + later;
      assert whole[..|whole| - 1] == history + later[..|later| - 1];
      CreatedAtNeverChanges(history, later[..|later| - 1], key);
    }
  }

  /** The first accepted save under the key, or -1. */
  function FirstByKey(history: seq<SaveCall>, m: string, k: string): (i: int)
    ensures -1 <= i < |history|
    ensures i >= 0 ==> ByKey(history[i], m, k)
  {
    if history == [] then -1
    else
      var n := |history| - 1;
      var earlier := FirstByKey(history[..n], m, k);
      if earlier >= 0 then earlier else if ByKey(history[n], m, k) then n else -1
  }

  /** A row keeps the reading of the database's clock at its first save, whatever is saved later. */
  lemma {:induction false} RowKeepsFirstStamp(history: seq<SaveCall>, clock: Clock, m: string, k: string)
    ensures var i, rows := FirstByKey(history, m, k), Upserts(history, clock);
            ((m, k) in rows <==> i >= 0) && (i >= 0 ==> rows[(m, k)].createdAt == clock(i))
  {
    if history != [] { RowKeepsFirstStamp(history[..|history| - 1], clock, m, k); }
  }

  lemma {:induction false} StampIsFirst(history: seq<SaveCall>, m: string, k: string)
    requires ColonFree(history) && ':' !in m
    requires forall i :: 0 <= i < |history| ==> history[i].updatedAt != ZERO_TIME
    ensures var i := FirstByKey(history, m, k);
            Stamp(history, Composite(m, k)) == if i >= 0 then history[i].updatedAt else ZERO_TIME
  {
    if history != [] {
      var c := history[|history| - 1];
      StampIsFirst(history[..|history| - 1], m, k);
      CompositeInjective(c.merchantID, c.idempotencyKey, m, k);
    }
  }

  /** Both stores date a transaction by its first save, memory by the save's own time and the table by the
      database's clock: they agree exactly when that clock read the same. */
  lemma CreatedAtAgreesIffClocksDo(history: seq<SaveCall>, clock: Clock, m: string, k: string)
    requires ColonFree(history) && ':' !in m
    requires forall i :: 0 <= i < |history| ==> history[i].updatedAt != ZERO_TIME
    ensures var found, rows, i := FindByKey(Saves(history), m, k), Upserts(history, clock), FirstByKey(history, m, k);
            && (found.Some? <==> i >= 0) && ((m, k) in rows <==> i >= 0)
            && (i >= 0 ==> (found.value.createdAt == rows[(m, k)].createdAt <==> history[i].updatedAt == clock(i)))
  {
    CreatedAtIsStamp(history, Composite(m, k));
    StampIsFirst(history, m, k);
    RowKeepsFirstStamp(history, clock, m, k);
  }
}
