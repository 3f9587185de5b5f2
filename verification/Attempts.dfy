/** Velocity checks over payment requests: which requests are the same attempt, and what each counter counts
    (internal/subsystems/antifraud/velocity.go). */
module Attempts {
  import opened Text
  import opened Payments
  import opened Velocity
  import opened Pruning

  // ---------- Which requests share a key ----------

  predicate SameIds(a: PaymentRequest, b: PaymentRequest) {
    Trim(a.merchantID) == Trim(b.merchantID) && Trim(a.paymentID) == Trim(b.paymentID)
    && Trim(a.idempotencyKey) == Trim(b.idempotencyKey)
  }

  predicate ColonFreeIds(r: PaymentRequest) {
    ':' !in Trim(r.merchantID) && ':' !in Trim(r.paymentID)
  }

  /** Requests whose merchant and payment ids hold no colon are the same attempt exactly when their three ids agree. */
  lemma SameKeyIffSameIds(a: PaymentRequest, b: PaymentRequest)
    requires ColonFreeIds(a) && ColonFreeIds(b)
    ensures SeenKey(a) == SeenKey(b) <==> SameIds(a, b)
  {
    hide Trim;
    var m, p, k := Trim(a.merchantID), Trim(a.paymentID), Trim(a.idempotencyKey);
    var n, q, l := Trim(b.merchantID), Trim(b.paymentID), Trim(b.idempotencyKey);
    assert SeenKey(a) == Composite(m, Composite(p, k)) && SeenKey(b) == Composite(n, Composite(q, l));
    CompositeInjective(m, Composite(p, k), n, Composite(q, l));
    CompositeInjective(p, k, q, l);
  }

  // ---------- Runs of requests ----------

  datatype Attempt = Attempt(req: PaymentRequest, at: Time)

  function EventsOf(sha256: string -> string, attempts: seq<Attempt>): (events: seq<Event>)
    ensures |events| == |attempts|
  {
    seq(|attempts|, i requires 0 <= i < |attempts| => EventOf(sha256, attempts[i].req, attempts[i].at))
  }

  predicate PairwiseDifferent(attempts: seq<Attempt>) {
    && (forall i :: 0 <= i < |attempts| ==> ColonFreeIds(attempts[i].req))
    && forall i, j :: 0 <= i < j < |attempts| ==> !SameIds(attempts[i].req, attempts[j].req)
  }

  /** Pairwise different requests have pairwise different keys. */
  lemma DifferentRequestsAreFresh(sha256: string -> string, attempts: seq<Attempt>)
    requires PairwiseDifferent(attempts)
    ensures FreshKeys(EventsOf(sha256, attempts))
  {
    hide SameIds, ColonFreeIds, SeenKey;
    var events := EventsOf(sha256, attempts);
    forall i, j | 0 <= i < j < |events| ensures events[i].seenKey != events[j].seenKey {
      KeyOfEvent(sha256, attempts[i]);
      KeyOfEvent(sha256, attempts[j]);
      SameKeyIffSameIds(attempts[i].req, attempts[j].req);
    }
  }

  lemma KeyOfEvent(sha256: string -> string, a: Attempt)
    ensures var e := EventOf(sha256, a.req, a.at); e.seenKey == SeenKey(a.req) && e.at == a.at
  {
    hide SeenKey, HashSensitive, WalletID, DigitsOnly, Lower, Trim;
  }

  /** Of pairwise different requests the history records all, and the buffer all that none overtook. */
  lemma DifferentRequestsAreRecorded(sha256: string -> string, attempts: seq<Attempt>, i: nat)
    requires PairwiseDifferent(attempts) && i < |attempts|
    ensures var events := EventsOf(sha256, attempts);
            && History(events) == events
            && (events[i] in Buffer(events) <==>
                  forall j :: i < j < |attempts| ==> attempts[i].at >= attempts[j].at - WINDOW_24H)
  {
    hide PairwiseDifferent, EventOf, Buffer, History;
    var events := EventsOf(sha256, attempts);
    DifferentRequestsAreFresh(sha256, attempts);
    HistoryOfAll(events);
    FreshInBuffer(events, i);
    forall j | 0 <= j < |attempts| ensures events[j].at == attempts[j].at { KeyOfEvent(sha256, attempts[j]); }
  }

  lemma FreshInBuffer(events: seq<Event>, i: nat)
    requires FreshKeys(events) && i < |events|
    ensures events[i] in Buffer(events) <==> forall j :: i < j < |events| ==> events[i].at >= events[j].at - WINDOW_24H
  {
    hide Buffer, Remembered;
    forall a, b | 0 <= a < b < |events| ensures !SameKey(events, a, b) {}
    InBufferIffNotOvertaken(events, events[i]);
    forall k | 0 <= k < |events| && events[k] == events[i] ensures k == i {}
  }

  // ---------- What each counter counts ----------

  /** No two texts share a fingerprint, and none has an empty one. */
  ghost predicate CollisionFree(sha256: string -> string) {
    (forall a, b :: sha256(a) == sha256(b) ==> a == b) && (forall a :: sha256(a) != "")
  }

  /** Both texts are there, and equal. */
  predicate SameNonEmpty(a: string, b: string) {
    a != "" && a == b
  }

  lemma FingerprintsAgree(sha256: string -> string, a: string, b: string)
    requires CollisionFree(sha256)
    ensures HashSensitive(sha256, a) != "" && HashSensitive(sha256, a) == HashSensitive(sha256, b)
            <==> SameNonEmpty(Trim(a), Trim(b))
  {
    hide Trim;
  }

  /** The wallet an attempt is counted under is the first of the three that is not blank. */
  lemma WalletIsFirstOfThree(c: Customer)
    ensures IsFirstNonBlank([c.digitalRubleWalletID, c.digitalRubleIdentifier, c.digitalWalletID], Trim(WalletID(c)))
  {
    hide Trim;
    var values := [c.digitalRubleWalletID, c.digitalRubleIdentifier, c.digitalWalletID];
    assert values[0] == c.digitalRubleWalletID && values[1] == c.digitalRubleIdentifier;
    assert values[2] == c.digitalWalletID;
  }

  /** An earlier attempt counts for the current one: same merchant, same instrument, and not too long ago. */
  lemma CountedMeans(sha256: string -> string, counter: Counter, current: Attempt, earlier: Attempt)
    requires CollisionFree(sha256)
    ensures var c, d, age := current.req.customer, earlier.req.customer, current.at - earlier.at;
            Counted(counter, EventOf(sha256, current.req, current.at), current.at,
                    EventOf(sha256, earlier.req, earlier.at))
            <==> Trim(current.req.merchantID) == Trim(earlier.req.merchantID)
                 && match counter
                    case Card1h => SameNonEmpty(Trim(DigitsOnly(c.cardNumber)), Trim(DigitsOnly(d.cardNumber)))
                                   && age <= 3_600_000_000_000
                    case Email30m => SameNonEmpty(Trim(Lower(Trim(c.email))), Trim(Lower(Trim(d.email))))
                                     && age <= 1_800_000_000_000
                    case Phone1h => SameNonEmpty(Trim(DigitsOnly(c.phone)), Trim(DigitsOnly(d.phone)))
                                    && age <= 3_600_000_000_000
                    case Wallet1h => SameNonEmpty(Trim(Lower(Trim(WalletID(c)))), Trim(Lower(Trim(WalletID(d)))))
                                     && age <= 3_600_000_000_000
                    case Merchant5m => age <= 300_000_000_000
  {
    hide Trim, Lower, DigitsOnly, WalletID, SeenKey, HashSensitive, CollisionFree;
    var c, d := current.req.customer, earlier.req.customer;
    FingerprintsAgree(sha256, DigitsOnly(c.cardNumber), DigitsOnly(d.cardNumber));
    FingerprintsAgree(sha256, Lower(Trim(c.email)), Lower(Trim(d.email)));
    FingerprintsAgree(sha256, DigitsOnly(c.phone), DigitsOnly(d.phone));
    FingerprintsAgree(sha256, Lower(Trim(WalletID(c))), Lower(Trim(WalletID(d))));
  }

  /** An earlier attempt shows a card for the current one's e-mail or phone. */
  lemma LinkedMeans(sha256: string -> string, link: Link, current: Attempt, earlier: Attempt)
    requires CollisionFree(sha256)
    ensures var c, d := current.req.customer, earlier.req.customer;
            Linked(link, EventOf(sha256, current.req, current.at), current.at, EventOf(sha256, earlier.req, earlier.at))
            <==> Trim(current.req.merchantID) == Trim(earlier.req.merchantID)
                 && Trim(DigitsOnly(d.cardNumber)) != "" && current.at - earlier.at <= 86_400_000_000_000
                 && match link
                    case SameEmail => SameNonEmpty(Trim(Lower(Trim(c.email))), Trim(Lower(Trim(d.email))))
                    case SamePhone => SameNonEmpty(Trim(DigitsOnly(c.phone)), Trim(DigitsOnly(d.phone)))
  {
    hide Trim, Lower, DigitsOnly, WalletID, SeenKey, HashSensitive, CollisionFree;
    var c, d := current.req.customer, earlier.req.customer;
    FingerprintsAgree(sha256, DigitsOnly(d.cardNumber), DigitsOnly(d.cardNumber));
    FingerprintsAgree(sha256, Lower(Trim(c.email)), Lower(Trim(d.email)));
    FingerprintsAgree(sha256, DigitsOnly(c.phone), DigitsOnly(d.phone));
  }
}
