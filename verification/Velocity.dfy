/** The sliding-window velocity store (internal/subsystems/antifraud/velocity.go). */
module Velocity {
  import opened Text
  import opened Payments

  const MINUTE: Time := 60_000_000_000
  const WINDOW_5M: Time := 5 * MINUTE
  const WINDOW_30M: Time := 30 * MINUTE
  const WINDOW_1H: Time := 60 * MINUTE
  const WINDOW_24H: Time := 24 * 60 * MINUTE

  datatype Event = Event(
    merchantID: string, paymentID: string, seenKey: string, at: Time,
    cardHash: string, emailHash: string, phoneHash: string, walletHash: string)

  datatype Counts = Counts(
    cardAttempts1h: nat, emailAttempts30m: nat, phoneAttempts1h: nat, walletAttempts1h: nat, merchantAttempts5m: nat,
    distinctCardsPerEmail24h: nat, distinctCardsPerPhone24h: nat)

  // ---------- Events ----------

  function SeenKey(req: PaymentRequest): (key: string)
    ensures key != ""
  {
    Trim(req.merchantID) + ":" + Trim(req.paymentID) + ":" + Trim(req.idempotencyKey)
  }

  function WalletID(c: Customer): string {
    if !Blank(c.digitalRubleWalletID) then c.digitalRubleWalletID
    else if !Blank(c.digitalRubleIdentifier) then c.digitalRubleIdentifier
    else c.digitalWalletID
  }

  function HashSensitive(sha256: string -> string, value: string): string {
    if Trim(value) == "" then "" else sha256(Trim(value))
  }

  function EventOf(sha256: string -> string, req: PaymentRequest, now: Time): Event {
    var c := req.customer;
    Event(Trim(req.merchantID), Trim(req.paymentID), SeenKey(req), now,
          HashSensitive(sha256, DigitsOnly(c.cardNumber)), HashSensitive(sha256, Lower(Trim(c.email))),
          HashSensitive(sha256, DigitsOnly(c.phone)), HashSensitive(sha256, Lower(Trim(WalletID(c)))))
  }

  // ---------- What each counter counts ----------

  datatype Counter = Card1h | Email30m | Phone1h | Wallet1h | Merchant5m
  datatype Link = SameEmail | SamePhone

  predicate Counted(counter: Counter, current: Event, now: Time, e: Event) {
    e.merchantID == current.merchantID &&
    var age := now - e.at;
    match counter
    case Card1h => current.cardHash != "" && e.cardHash == current.cardHash && age <= WINDOW_1H
    case Email30m => current.emailHash != "" && e.emailHash == current.emailHash && age <= WINDOW_30M
    case Phone1h => current.phoneHash != "" && e.phoneHash == current.phoneHash && age <= WINDOW_1H
    case Wallet1h => current.walletHash != "" && e.walletHash == current.walletHash && age <= WINDOW_1H
    case Merchant5m => age <= WINDOW_5M
  }

  predicate Linked(link: Link, current: Event, now: Time, e: Event) {
    e.merchantID == current.merchantID && e.cardHash != "" && now - e.at <= WINDOW_24H &&
    match link
    case SameEmail => current.emailHash != "" && e.emailHash == current.emailHash
    case SamePhone => current.phoneHash != "" && e.phoneHash == current.phoneHash
  }

  function CountOver(events: seq<Event>, counter: Counter, current: Event, now: Time): nat {
    if events == [] then 0
    else CountOver(events[..|events| - 1], counter, current, now)
         + if Counted(counter, current, now, events[|events| - 1]) then 1 else 0
  }

  function CardsOver(events: seq<Event>, link: Link, current: Event, now: Time): set<string> {
    set e | e in events && Linked(link, current, now, e) :: e.cardHash
  }

  function CountsOver(events: seq<Event>, current: Event, now: Time): Counts {
    Counts(CountOver(events, Card1h, current, now), CountOver(events, Email30m, current, now),
           CountOver(events, Phone1h, current, now), CountOver(events, Wallet1h, current, now),
           CountOver(events, Merchant5m, current, now),
           |CardsOver(events, SameEmail, current, now)|, |CardsOver(events, SamePhone, current, now)|)
  }

  // ---------- The buffer and the full history, step by step ----------

  /** The events not older than `cutoff`, in order. */
  function Kept(events: seq<Event>, cutoff: Time): seq<Event> {
    if events == [] then []
    else
      var earlier, e := Kept(events[..|events| - 1], cutoff), events[|events| - 1];
      if e.at < cutoff then earlier else earlier + [e]
  }

  function SeenKeys(events: seq<Event>): set<string> {
    set e | e in events && e.seenKey != "" :: e.seenKey
  }

  function Appended(kept: seq<Event>, event: Event): seq<Event> {
    if event.seenKey != "" && event.seenKey in SeenKeys(kept) then kept else kept + [event]
  }

  /** Prune, then append unless the key is already there. */
  function BufferStep(events: seq<Event>, event: Event, now: Time): seq<Event> {
    Appended(Kept(events, now - WINDOW_24H), event)
  }

  /** Never prune: an attempt is recorded unless its key was recorded in the last 24 hours. */
  function HistoryStep(history: seq<Event>, event: Event, now: Time): seq<Event> {
    if event.seenKey != "" && (exists e <- history :: e.seenKey == event.seenKey && now - e.at <= WINDOW_24H)
    then history else history + [event]
  }

  /** A run of attempts, each recorded at its own time. */
  function Buffer(attempts: seq<Event>): seq<Event> {
    if attempts == [] then []
    else var last := attempts[|attempts| - 1]; BufferStep(Buffer(attempts[..|attempts| - 1]), last, last.at)
  }

  function History(attempts: seq<Event>): seq<Event> {
    if attempts == [] then []
    else var last := attempts[|attempts| - 1]; HistoryStep(History(attempts[..|attempts| - 1]), last, last.at)
  }

  // ---------- Pruning ----------

  lemma KeptAppend(events: seq<Event>, e: Event, cutoff: Time)
    ensures Kept(events + [e], cutoff) == if e.at < cutoff then Kept(events, cutoff) else Kept(events, cutoff) + [e]
  {
    assert (events + [e])[..|events|] == events;
  }

  lemma CountAppend(events: seq<Event>, e: Event, counter: Counter, current: Event, now: Time)
    ensures CountOver(events + [e], counter, current, now)
            == CountOver(events, counter, current, now) + if Counted(counter, current, now, e) then 1 else 0
  {
    assert (events + [e])[..|events|] == events;
  }

  lemma {:induction false} KeptMember(events: seq<Event>, cutoff: Time, e: Event)
    ensures e in Kept(events, cutoff) <==> e in events && e.at >= cutoff
  {
    if events != [] {
      var n := |events| - 1;
      KeptMember(events[..n], cutoff, e);
      assert events == events[..n] + [events[n]];
    }
  }

  /** No window is wider than 24 hours, so what pruning drops is never counted. */
  lemma {:induction false} PruningKeepsCount(events: seq<Event>, counter: Counter, current: Event, now: Time)
    ensures CountOver(Kept(events, now - WINDOW_24H), counter, current, now) == CountOver(events, counter, current, now)
  {
    if events != [] {
      var n := |events| - 1;
      PruningKeepsCount(events[..n], counter, current, now);
      if events[n].at >= now - WINDOW_24H {
        CountAppend(Kept(events[..n], now - WINDOW_24H), events[n], counter, current, now);
      }
    }
  }

  lemma PruningKeepsCounts(events: seq<Event>, current: Event, now: Time)
    ensures CountsOver(Kept(events, now - WINDOW_24H), current, now) == CountsOver(events, current, now)
  {
    forall counter: Counter
      ensures CountOver(Kept(events, now - WINDOW_24H), counter, current, now)
              == CountOver(events, counter, current, now)
    {
      PruningKeepsCount(events, counter, current, now);
    }
    forall link: Link
      ensures CardsOver(Kept(events, now - WINDOW_24H), link, current, now) == CardsOver(events, link, current, now)
    {
      PruningKeepsCards(events, link, current, now);
    }
  }

  lemma PruningKeepsCards(events: seq<Event>, link: Link, current: Event, now: Time)
    ensures CardsOver(Kept(events, now - WINDOW_24H), link, current, now) == CardsOver(events, link, current, now)
  {
    forall e ensures e in Kept(events, now - WINDOW_24H) <==> e in events && e.at >= now - WINDOW_24H {
      KeptMember(events, now - WINDOW_24H, e);
    }
  }

  lemma RunNext(attempts: seq<Event>, n: nat)
    requires n < |attempts|
    ensures Buffer(attempts[..n + 1]) == BufferStep(Buffer(attempts[..n]), attempts[n], attempts[n].at)
    ensures History(attempts[..n + 1]) == HistoryStep(History(attempts[..n]), attempts[n], attempts[n].at)
  {
    assert attempts[..n + 1][..n] == attempts[..n];
  }

  // ---------- Distinct keys and repeats ----------

  predicate DistinctKeys(events: seq<Event>) {
    forall i, j :: 0 <= i < j < |events| && events[i].seenKey != "" ==> events[i].seenKey != events[j].seenKey
  }

  lemma {:induction false} KeptKeepsDistinct(events: seq<Event>, cutoff: Time)
    requires DistinctKeys(events)
    ensures DistinctKeys(Kept(events, cutoff))
  {
    if events != [] {
      var n := |events| - 1;
      KeptKeepsDistinct(events[..n], cutoff);
      forall e | e in Kept(events[..n], cutoff) && e.seenKey != "" ensures e.seenKey != events[n].seenKey {
        KeptMember(events[..n], cutoff, e);
        var i :| 0 <= i < n && events[..n][i] == e;
        assert events[i] == e;
      }
    }
  }

  lemma StepKeepsDistinct(events: seq<Event>, event: Event, now: Time)
    requires DistinctKeys(events)
    ensures DistinctKeys(BufferStep(events, event, now))
  {
    var kept := Kept(events, now - WINDOW_24H);
    KeptKeepsDistinct(events, now - WINDOW_24H);
    forall i | 0 <= i < |kept| && kept[i].seenKey != "" ensures kept[i].seenKey in SeenKeys(kept) {
      assert kept[i] in kept;
    }
  }

  /** Keys stay pairwise distinct over any run, whatever the clock does. */
  lemma {:induction false} BufferKeysDistinct(attempts: seq<Event>)
    ensures DistinctKeys(Buffer(attempts))
  {
    if attempts != [] {
      var last := attempts[|attempts| - 1];
      BufferKeysDistinct(attempts[..|attempts| - 1]);
      StepKeepsDistinct(Buffer(attempts[..|attempts| - 1]), last, last.at);
    }
  }

  /** `kept` is what stands at the increasing positions `from`, and all that is skipped is too old. */
  predicate StableAt(from: seq<nat>, events: seq<Event>, kept: seq<Event>, cutoff: Time) {
    && |from| == |kept|
    && (forall i :: 0 <= i < |from| ==> from[i] < |events| && events[from[i]] == kept[i])
    && (forall i, j :: 0 <= i < j < |from| ==> from[i] < from[j])
    && (forall p :: 0 <= p < |events| && p !in from ==> events[p].at < cutoff)
  }

  lemma StableNext(from: seq<nat>, events: seq<Event>, kept: seq<Event>, cutoff: Time, e: Event)
    requires StableAt(from, events, kept, cutoff)
    ensures e.at < cutoff ==> StableAt(from, events + [e], kept, cutoff)
    ensures e.at >= cutoff ==> StableAt(from + [|events|], events + [e], kept + [e], cutoff)
  {
  }

  /** Pruning keeps a stable subsequence: increasing positions, and every skipped event is too old. */
  lemma {:induction false} KeptIsStable(events: seq<Event>, cutoff: Time) returns (from: seq<nat>)
    ensures StableAt(from, events, Kept(events, cutoff), cutoff)
  {
    if events == [] {
      from := [];
    } else {
      hide StableAt, Kept;
      var n := |events| - 1;
      from := KeptIsStable(events[..n], cutoff);
      StableNext(from, events[..n], Kept(events[..n], cutoff), cutoff, events[n]);
      KeptAppend(events[..n], events[n], cutoff);
      assert events == events[..n] + [events[n]];
      if events[n].at >= cutoff {
        from := from + [n];
      }
    }
  }

  predicate NoCounterAbove(a: Counts, b: Counts) {
    a.cardAttempts1h <= b.cardAttempts1h && a.emailAttempts30m <= b.emailAttempts30m
    && a.phoneAttempts1h <= b.phoneAttempts1h && a.walletAttempts1h <= b.walletAttempts1h
    && a.merchantAttempts5m <= b.merchantAttempts5m
    && a.distinctCardsPerEmail24h <= b.distinctCardsPerEmail24h
    && a.distinctCardsPerPhone24h <= b.distinctCardsPerPhone24h
  }

  lemma {:induction false} CountFallsWithTime(events: seq<Event>, counter: Counter, current: Event, now: Time,
                                              later: Time)
    requires now <= later
    ensures CountOver(events, counter, current.(at := later), later) <= CountOver(events, counter, current, now)
  {
    if events != [] { CountFallsWithTime(events[..|events| - 1], counter, current, now, later); }
  }

  lemma CountsFallWithTime(events: seq<Event>, current: Event, now: Time, later: Time)
    requires now <= later
    ensures NoCounterAbove(CountsOver(events, current.(at := later), later), CountsOver(events, current, now))
  {
    forall counter: Counter
      ensures CountOver(events, counter, current.(at := later), later) <= CountOver(events, counter, current, now)
    {
      CountFallsWithTime(events, counter, current, now, later);
    }
    forall link: Link
      ensures |CardsOver(events, link, current.(at := later), later)| <= |CardsOver(events, link, current, now)|
    {
      Subset(CardsOver(events, link, current.(at := later), later), CardsOver(events, link, current, now));
    }
  }

  lemma {:induction false} Subset(a: set<string>, b: set<string>)
    requires a <= b
    ensures |a| <= |b|
  {
    if a != {} {
      var x :| x in a;
      Subset(a - {x}, b - {x});
    }
  }

  /** Repeating a request while its event is still within 24 hours adds no event and raises no counter. */
  lemma RepeatAddsNothing(events: seq<Event>, event: Event, recorded: Event, later: Time)
    requires event.seenKey != "" && event.at <= later
    requires recorded in BufferStep(events, event, event.at) && recorded.seenKey == event.seenKey
    requires later - recorded.at <= WINDOW_24H
    ensures var before := BufferStep(events, event, event.at);
            var after := BufferStep(before, event.(at := later), later);
            && after == Kept(before, later - WINDOW_24H)
            && NoCounterAbove(CountsOver(after, event.(at := later), later), CountsOver(before, event, event.at))
  {
    var before := BufferStep(events, event, event.at);
    KeptMember(before, later - WINDOW_24H, recorded);
    PruningKeepsCounts(before, event.(at := later), later);
    CountsFallWithTime(before, event, event.at, later);
  }

  // ---------- The store ----------

  class VelocityStore {
    var buf: array<Event>
    var len: nat
    var seen: set<string>
    const sha256: string -> string

    ghost predicate Valid()
      reads this, buf
    {
      len <= buf.Length && seen == SeenKeys(Events()) && DistinctKeys(Events())
    }

    ghost function Events(): seq<Event>
      reads this, buf
      requires len <= buf.Length
    {
      buf[..len]
    }

    constructor (sha256: string -> string)
      ensures Valid() && Events() == [] && fresh(buf) && this.sha256 == sha256
    {
      this.sha256 := sha256;
      buf := new Event[0];
      len, seen := 0, {};
    }

    method PruneLocked(cutoff: Time)
      requires Valid()
      modifies this, buf
      ensures Valid() && buf == old(buf)
      ensures Events() == Kept(old(Events()), cutoff)
    {
      KeptKeepsDistinct(Events(), cutoff);
      len, seen := KeepRecent(cutoff);
    }

    /** Reads and writes the one buffer: the write index never passes the read index. */
    method KeepRecent(cutoff: Time) returns (kept: nat, newSeen: set<string>)
      requires Valid()
      modifies buf
      ensures kept <= buf.Length && buf[..kept] == Kept(old(Events()), cutoff) && newSeen == SeenKeys(buf[..kept])
    {
      ghost var was, done := Events(), [];
      kept := 0;
      newSeen := {};
      for i := 0 to len
        invariant kept <= i
        invariant done == Kept(was[..i], cutoff) && newSeen == SeenKeys(done)
        invariant buf[..kept] == done
        invariant forall k :: i <= k < len ==> buf[k] == was[k]
      {
        var event := buf[i];
        KeptOfNext(was, i, cutoff);
        if event.at >= cutoff {
          KeepAt(kept, event);
          kept := kept + 1;
          done := done + [event];
          if event.seenKey != "" {
            newSeen := newSeen + {event.seenKey};
          }
        }
      }
      assert was[..len] == was;
    }

    /** Appending to the kept events overwrites the buffer they share. */
    method KeepAt(kept: nat, event: Event)
      requires kept < buf.Length
      modifies buf
      ensures buf[..kept + 1] == old(buf[..kept]) + [event]
      ensures forall k :: kept < k < buf.Length ==> buf[k] == old(buf[k])
    {
      buf[kept] := event;
    }

    method Append(event: Event)
      requires len <= buf.Length
      modifies this`buf, this`len, buf
      ensures len <= buf.Length && Events() == old(Events()) + [event]
      ensures buf == old(buf) || fresh(buf)
    {
      if len == buf.Length {
        var larger := new Event[2 * len + 1](_ => event);
        forall i | 0 <= i < len { larger[i] := buf[i]; }
        buf := larger;
      }
      buf[len] := event;
      len := len + 1;
    }

    method RecordAndCount(req: PaymentRequest, now: Time) returns (counts: Counts)
      requires Valid()
      modifies this, buf
      ensures Valid() && (buf == old(buf) || fresh(buf))
      ensures Events() == BufferStep(old(Events()), EventOf(sha256, req, now), now)
      ensures counts == CountsOver(Events(), EventOf(sha256, req, now), now)
    {
      var event := EventOf(sha256, req, now);
      Record(event, now);
      counts := CountLocked(event, now);
    }

    method Record(event: Event, now: Time)
      requires Valid()
      modifies this, buf
      ensures Valid() && (buf == old(buf) || fresh(buf))
      ensures Events() == BufferStep(old(Events()), event, now)
    {
      StepKeepsDistinct(Events(), event, now);
      PruneLocked(now - WINDOW_24H);
      ghost var kept := Events();
      if event.seenKey == "" || event.seenKey !in seen {
        Append(event);
        SeenKeysAppend(kept, event);
        if event.seenKey != "" {
          seen := seen + {event.seenKey};
        }
      }
    }

    method CountLocked(current: Event, now: Time) returns (counts: Counts)
      requires Valid()
      ensures counts == CountsOver(Events(), current, now)
    {
      ghost var events := Events();
      var tally := Tally(0, 0, 0, 0, 0, {}, {});
      for i := 0 to len
        invariant tally == TallyOver(events[..i], current, now)
      {
        TallyOfNext(events, i, current, now);
        tally := CountEvent(tally, buf[i], current, now);
      }
      assert events[..len] == events;
      counts := Counts(tally.card, tally.email, tally.phone, tally.wallet, tally.merchant,
                       |tally.cardsByEmail|, |tally.cardsByPhone|);
    }

    /** The body of that pass: branch by branch, as the counters are raised. */
    method CountEvent(tally: Tally, event: Event, current: Event, now: Time) returns (t: Tally)
      ensures t == Tallied(tally, event, current, now)
    {
      t := tally;
      if event.merchantID != current.merchantID {
        return;
      }
      var age := now - event.at;
      if age <= WINDOW_5M {
        t := t.(merchant := t.merchant + 1);
      }
      if current.cardHash != "" && event.cardHash == current.cardHash && age <= WINDOW_1H {
        t := t.(card := t.card + 1);
      }
      if current.emailHash != "" && event.emailHash == current.emailHash && age <= WINDOW_30M {
        t := t.(email := t.email + 1);
      }
      if current.phoneHash != "" && event.phoneHash == current.phoneHash && age <= WINDOW_1H {
        t := t.(phone := t.phone + 1);
      }
      if current.walletHash != "" && event.walletHash == current.walletHash && age <= WINDOW_1H {
        t := t.(wallet := t.wallet + 1);
      }
      if current.emailHash != "" && event.emailHash == current.emailHash && event.cardHash != "" && age <= WINDOW_24H {
        t := t.(cardsByEmail := t.cardsByEmail + {event.cardHash});
      }
      if current.phoneHash != "" && event.phoneHash == current.phoneHash && event.cardHash != "" && age <= WINDOW_24H {
        t := t.(cardsByPhone := t.cardsByPhone + {event.cardHash});
      }
    }
  }

  /** What the pass has kept, and the keys of that, after one more event. */
  lemma KeptOfNext(events: seq<Event>, i: nat, cutoff: Time)
    requires i < |events|
    ensures var before, after := Kept(events[..i], cutoff), Kept(events[..i + 1], cutoff);
            if events[i].at < cutoff then after == before
            else && after == before + [events[i]]
                 && SeenKeys(after) == SeenKeys(before) + if events[i].seenKey != "" then {events[i].seenKey} else {}
  {
    assert events[..i + 1] == events[..i] + [events[i]];
    KeptAppend(events[..i], events[i], cutoff);
    SeenKeysAppend(Kept(events[..i], cutoff), events[i]);
  }

  lemma SeenKeysAppend(events: seq<Event>, event: Event)
    ensures SeenKeys(events + [event])
            == if event.seenKey != "" then SeenKeys(events) + {event.seenKey} else SeenKeys(events)
  {
    forall e | e in events ensures e in events + [event] {}
    assert event in events + [event];
  }

  /** What the pass has counted so far. */
  datatype Tally = Tally(
    card: nat, email: nat, phone: nat, wallet: nat, merchant: nat, cardsByEmail: set<string>, cardsByPhone: set<string>)

  function TallyOver(events: seq<Event>, current: Event, now: Time): Tally {
    Tally(CountOver(events, Card1h, current, now), CountOver(events, Email30m, current, now),
          CountOver(events, Phone1h, current, now), CountOver(events, Wallet1h, current, now),
          CountOver(events, Merchant5m, current, now),
          CardsOver(events, SameEmail, current, now), CardsOver(events, SamePhone, current, now))
  }

  /** The tally with one more event. */
  function Tallied(t: Tally, e: Event, current: Event, now: Time): Tally {
    Tally(t.card + (if Counted(Card1h, current, now, e) then 1 else 0),
          t.email + (if Counted(Email30m, current, now, e) then 1 else 0),
          t.phone + (if Counted(Phone1h, current, now, e) then 1 else 0),
          t.wallet + (if Counted(Wallet1h, current, now, e) then 1 else 0),
          t.merchant + (if Counted(Merchant5m, current, now, e) then 1 else 0),
          t.cardsByEmail + (if Linked(SameEmail, current, now, e) then {e.cardHash} else {}),
          t.cardsByPhone + (if Linked(SamePhone, current, now, e) then {e.cardHash} else {}))
  }

  lemma TallyOfNext(events: seq<Event>, i: nat, current: Event, now: Time)
    requires i < |events|
    ensures TallyOver(events[..i + 1], current, now)
            == Tallied(TallyOver(events[..i], current, now), events[i], current, now)
  {
    assert events[..i + 1] == events[..i] + [events[i]];
    TallyAppend(events[..i], events[i], current, now);
  }

  lemma TallyAppend(events: seq<Event>, e: Event, current: Event, now: Time)
    ensures TallyOver(events + [e], current, now) == Tallied(TallyOver(events, current, now), e, current, now)
  {
    CountAppend(events, e, Card1h, current, now);
    CountAppend(events, e, Email30m, current, now);
    CountAppend(events, e, Phone1h, current, now);
    CountAppend(events, e, Wallet1h, current, now);
    CountAppend(events, e, Merchant5m, current, now);
    CardsAppend(events, e, SameEmail, current, now);
    CardsAppend(events, e, SamePhone, current, now);
  }

  lemma CardsAppend(events: seq<Event>, e: Event, link: Link, current: Event, now: Time)
    ensures CardsOver(events + [e], link, current, now)
            == CardsOver(events, link, current, now) + if Linked(link, current, now, e) then {e.cardHash} else {}
  {
    assert forall x :: x in events + [e] <==> x in events || x == e;
  }
}
