/** What pruning keeps of a run of attempts whose clock may step back, against the unpruned history
    (internal/subsystems/antifraud/velocity.go). Attempts are told apart by their position in the run. */
module Pruning {
  import opened Payments
  import opened Velocity

  // ---------- Positions ----------

  /** A later attempt, before the n-th, was so much later that its pruning dropped the i-th. */
  predicate Overtaken(attempts: seq<Event>, i: nat, n: nat)
    requires i < |attempts| && n <= |attempts|
  {
    exists j :: i < j < n && attempts[i].at < attempts[j].at - WINDOW_24H
  }

  predicate SameKey(attempts: seq<Event>, i: nat, j: nat)
    requires i < |attempts| && j < |attempts|
  {
    attempts[i].seenKey != "" && attempts[i].seenKey == attempts[j].seenKey
  }

  /** The attempt goes into the buffer: every earlier one there with its key has been overtaken by then. */
  predicate Buffered(attempts: seq<Event>, i: nat)
    requires i < |attempts|
    decreases i
  {
    forall j :: 0 <= j < i && SameKey(attempts, j, i) && Buffered(attempts, j) ==> Overtaken(attempts, j, i + 1)
  }

  /** The attempt goes into the history: every earlier one there with its key is more than 24 hours old. */
  predicate Remembered(attempts: seq<Event>, i: nat)
    requires i < |attempts|
    decreases i
  {
    forall j :: 0 <= j < i && SameKey(attempts, j, i) && Remembered(attempts, j)
                ==> attempts[i].at - attempts[j].at > WINDOW_24H
  }

  /** The last 24 hours before the end of the first n attempts cover the i-th. */
  predicate Covered(attempts: seq<Event>, i: nat, n: nat)
    requires i < |attempts| && 0 < n <= |attempts|
  {
    attempts[i].at >= attempts[n - 1].at - WINDOW_24H
  }

  /** What is in the buffer after n attempts. */
  function Present(attempts: seq<Event>, n: nat): set<nat>
    requires n <= |attempts|
  {
    set i | 0 <= i < n && Buffered(attempts, i) && !Overtaken(attempts, i, n)
  }

  /** What is in the history after n attempts. */
  function Known(attempts: seq<Event>, n: nat): set<nat>
    requires n <= |attempts|
  {
    set i | 0 <= i < n && Remembered(attempts, i)
  }

  /** What of the history the last 24 hours cover. */
  function Recent(attempts: seq<Event>, n: nat): set<nat>
    requires 0 < n <= |attempts|
  {
    set i | 0 <= i < n && Remembered(attempts, i) && Covered(attempts, i, n)
  }

  /** The first n attempts at the given positions, in order. */
  function Picked(attempts: seq<Event>, at: set<nat>, n: nat): seq<Event>
    requires n <= |attempts|
  {
    if n == 0 then []
    else if n - 1 in at then Picked(attempts, at, n - 1) + [attempts[n - 1]]
    else Picked(attempts, at, n - 1)
  }

  lemma {:induction false} PickedMember(attempts: seq<Event>, at: set<nat>, n: nat, e: Event)
    requires n <= |attempts|
    ensures e in Picked(attempts, at, n) <==> exists i :: 0 <= i < n && i in at && attempts[i] == e
  {
    if n > 0 { PickedMember(attempts, at, n - 1, e); }
  }

  lemma {:induction false} PickedSame(attempts: seq<Event>, a: set<nat>, b: set<nat>, n: nat)
    requires n <= |attempts| && forall i :: 0 <= i < n ==> (i in a <==> i in b)
    ensures Picked(attempts, a, n) == Picked(attempts, b, n)
  {
    if n > 0 { PickedSame(attempts, a, b, n - 1); }
  }

  lemma {:induction false} KeptPicked(attempts: seq<Event>, at: set<nat>, n: nat, cutoff: Time, kept: set<nat>)
    requires n <= |attempts|
    requires forall i :: 0 <= i < n ==> (i in kept <==> i in at && attempts[i].at >= cutoff)
    ensures Kept(Picked(attempts, at, n), cutoff) == Picked(attempts, kept, n)
  {
    if n > 0 {
      KeptPicked(attempts, at, n - 1, cutoff, kept);
      if n - 1 in at {
        KeptAppend(Picked(attempts, at, n - 1), attempts[n - 1], cutoff);
      }
    }
  }

  lemma {:induction false} PickedLength(attempts: seq<Event>, at: set<nat>, n: nat)
    requires n <= |attempts|
    ensures |Picked(attempts, at, n)| == |set i | i in at && i < n|
  {
    var below := set i | i in at && i < n;
    if n == 0 {
      assert below == {};
    } else {
      PickedLength(attempts, at, n - 1);
      var fewer := set i | i in at && i < n - 1;
      assert below == if n - 1 in at then fewer + {n - 1} else fewer;
    }
  }

  // ---------- The buffer and the history, by position ----------

  lemma OvertakenNext(attempts: seq<Event>, i: nat, n: nat)
    requires i < n < |attempts|
    ensures Overtaken(attempts, i, n + 1) <==> Overtaken(attempts, i, n) || attempts[i].at < attempts[n].at - WINDOW_24H
  {
  }

  /** Pruning for attempt n leaves what is present after it, but for itself. */
  lemma PrunedForNext(attempts: seq<Event>, n: nat)
    requires n < |attempts|
    ensures Kept(Picked(attempts, Present(attempts, n), n), attempts[n].at - WINDOW_24H)
            == Picked(attempts, Present(attempts, n + 1), n)
  {
    forall i | 0 <= i < n
      ensures i in Present(attempts, n + 1)
              <==> i in Present(attempts, n) && attempts[i].at >= attempts[n].at - WINDOW_24H
    {
      OvertakenNext(attempts, i, n);
    }
    KeptPicked(attempts, Present(attempts, n), n, attempts[n].at - WINDOW_24H, Present(attempts, n + 1));
  }

  lemma KeySeen(attempts: seq<Event>, at: set<nat>, n: nat, key: string)
    requires n <= |attempts| && key != ""
    ensures key in SeenKeys(Picked(attempts, at, n))
            <==> exists i :: 0 <= i < n && i in at && attempts[i].seenKey == key
  {
    if key in SeenKeys(Picked(attempts, at, n)) {
      var e :| e in Picked(attempts, at, n) && e.seenKey == key;
      PickedMember(attempts, at, n, e);
    }
    if i :| 0 <= i < n && i in at && attempts[i].seenKey == key {
      PickedMember(attempts, at, n, attempts[i]);
    }
  }

  lemma BufferedIffUnseen(attempts: seq<Event>, n: nat)
    requires n < |attempts|
    ensures var key := attempts[n].seenKey;
            Buffered(attempts, n) <==> key == "" || key !in SeenKeys(Picked(attempts, Present(attempts, n + 1), n))
  {
    var key := attempts[n].seenKey;
    if key != "" {
      KeySeen(attempts, Present(attempts, n + 1), n, key);
      assert forall j :: 0 <= j < n ==> (SameKey(attempts, j, n) <==> attempts[j].seenKey == key);
    }
  }

  lemma PickedNext(attempts: seq<Event>, at: set<nat>, n: nat)
    requires n < |attempts|
    ensures Picked(attempts, at, n + 1)
            == if n in at then Picked(attempts, at, n) + [attempts[n]] else Picked(attempts, at, n)
  {
  }

  lemma PresentNext(attempts: seq<Event>, n: nat)
    requires n < |attempts|
    ensures Appended(Picked(attempts, Present(attempts, n + 1), n), attempts[n])
            == Picked(attempts, Present(attempts, n + 1), n + 1)
  {
    hide Picked;
    BufferedIffUnseen(attempts, n);
    assert !Overtaken(attempts, n, n + 1);
    PickedNext(attempts, Present(attempts, n + 1), n);
  }

  lemma BufferAfterNext(attempts: seq<Event>, n: nat)
    requires n < |attempts| && Buffer(attempts[..n]) == Picked(attempts, Present(attempts, n), n)
    ensures Buffer(attempts[..n + 1]) == Picked(attempts, Present(attempts, n + 1), n + 1)
  {
    hide Present, Picked, Kept, Buffer, Appended;
    RunNext(attempts, n);
    PrunedForNext(attempts, n);
    PresentNext(attempts, n);
  }

  lemma {:induction false} BufferAfter(attempts: seq<Event>, n: nat)
    requires n <= |attempts|
    ensures Buffer(attempts[..n]) == Picked(attempts, Present(attempts, n), n)
  {
    if n == 0 {
      assert attempts[..0] == [];
    } else {
      BufferAfter(attempts, n - 1);
      BufferAfterNext(attempts, n - 1);
    }
  }

  lemma RememberedIffForgotten(attempts: seq<Event>, n: nat, history: seq<Event>)
    requires n < |attempts| && history == Picked(attempts, Known(attempts, n), n)
    ensures HistoryStep(history, attempts[n], attempts[n].at)
            == if Remembered(attempts, n) then history + [attempts[n]] else history
  {
    var e := attempts[n];
    if x :| x in history && x.seenKey == e.seenKey && e.at - x.at <= WINDOW_24H {
      PickedMember(attempts, Known(attempts, n), n, x);
      var i :| 0 <= i < n && i in Known(attempts, n) && attempts[i] == x;
      assert e.seenKey != "" ==> SameKey(attempts, i, n);
    }
    if !Remembered(attempts, n) {
      var i :| 0 <= i < n && SameKey(attempts, i, n) && Remembered(attempts, i) && e.at - attempts[i].at <= WINDOW_24H;
      PickedMember(attempts, Known(attempts, n), n, attempts[i]);
      assert i in Known(attempts, n);
    }
  }

  lemma KnownNext(attempts: seq<Event>, n: nat)
    requires n < |attempts|
    ensures Picked(attempts, Known(attempts, n + 1), n + 1)
            == if Remembered(attempts, n) then Picked(attempts, Known(attempts, n), n) + [attempts[n]]
               else Picked(attempts, Known(attempts, n), n)
  {
    PickedSame(attempts, Known(attempts, n + 1), Known(attempts, n), n);
  }

  lemma HistoryAfterNext(attempts: seq<Event>, n: nat)
    requires n < |attempts| && History(attempts[..n]) == Picked(attempts, Known(attempts, n), n)
    ensures History(attempts[..n + 1]) == Picked(attempts, Known(attempts, n + 1), n + 1)
  {
    hide Known, Picked, Remembered, History, HistoryStep;
    RunNext(attempts, n);
    RememberedIffForgotten(attempts, n, History(attempts[..n]));
    KnownNext(attempts, n);
  }

  lemma {:induction false} HistoryAfter(attempts: seq<Event>, n: nat)
    requires n <= |attempts|
    ensures History(attempts[..n]) == Picked(attempts, Known(attempts, n), n)
  {
    if n == 0 {
      assert attempts[..0] == [];
    } else {
      HistoryAfter(attempts, n - 1);
      HistoryAfterNext(attempts, n - 1);
    }
  }

  lemma WindowAfter(attempts: seq<Event>, n: nat)
    requires 0 < n <= |attempts|
    ensures Kept(History(attempts[..n]), attempts[n - 1].at - WINDOW_24H) == Picked(attempts, Recent(attempts, n), n)
  {
    hide Picked, Kept, History, Remembered;
    HistoryAfter(attempts, n);
    KeptPicked(attempts, Known(attempts, n), n, attempts[n - 1].at - WINDOW_24H, Recent(attempts, n));
  }

  /** Whatever the clock does and however often requests repeat, the buffer holds exactly the attempts that went
      into it and that no later one overtook, in their order. */
  lemma BufferIsSurvivors(attempts: seq<Event>)
    ensures Buffer(attempts) == Picked(attempts, Present(attempts, |attempts|), |attempts|)
    ensures History(attempts) == Picked(attempts, Known(attempts, |attempts|), |attempts|)
  {
    hide Present, Known, Picked, Buffer, History;
    BufferAfter(attempts, |attempts|);
    HistoryAfter(attempts, |attempts|);
    assert attempts[..|attempts|] == attempts;
  }

  /** An event is in the buffer exactly when some attempt brought it there and was not overtaken. */
  lemma InBufferIffNotOvertaken(attempts: seq<Event>, e: Event)
    ensures e in Buffer(attempts)
            <==> exists i :: 0 <= i < |attempts| && attempts[i] == e
                             && Buffered(attempts, i) && !Overtaken(attempts, i, |attempts|)
  {
    hide Picked, Buffer, Buffered, Overtaken;
    BufferIsSurvivors(attempts);
    PickedMember(attempts, Present(attempts, |attempts|), |attempts|, e);
  }

  // ---------- When nothing is lost ----------

  /** At no point of the run has a remembered attempt that is covered then been overtaken before. */
  predicate NeverLosing(attempts: seq<Event>) {
    forall i, n :: 0 <= i < n <= |attempts| && Remembered(attempts, i) && Covered(attempts, i, n)
                   ==> !Overtaken(attempts, i, n)
  }

  /** Then the same attempts go into the buffer and into the history. */
  lemma {:induction false} BufferedIffRemembered(attempts: seq<Event>, i: nat)
    requires NeverLosing(attempts) && i < |attempts|
    ensures Buffered(attempts, i) <==> Remembered(attempts, i)
    decreases i
  {
    forall j | 0 <= j < i && SameKey(attempts, j, i)
      ensures Buffered(attempts, j) <==> Remembered(attempts, j)
      ensures Remembered(attempts, j) ==>
                (Overtaken(attempts, j, i + 1) <==> attempts[i].at - attempts[j].at > WINDOW_24H)
    {
      BufferedIffRemembered(attempts, j);
      OvertakenNext(attempts, j, i);
      assert Covered(attempts, j, i + 1) <==> attempts[i].at - attempts[j].at <= WINDOW_24H;
    }
  }

  lemma PresentIsRecent(attempts: seq<Event>, n: nat)
    requires NeverLosing(attempts) && 0 < n <= |attempts|
    ensures Present(attempts, n) == Recent(attempts, n)
  {
    forall i | 0 <= i < n ensures i in Present(attempts, n) <==> i in Recent(attempts, n) {
      BufferedIffRemembered(attempts, i);
      assert Covered(attempts, i, n) || Overtaken(attempts, i, n);
    }
  }

  /** Over any run, repeated requests and steps back included: at every point the buffer holds exactly the attempts
      of the history that the last 24 hours cover, if and only if none of those was ever overtaken. */
  lemma RecentExactlyIfNoneLost(attempts: seq<Event>)
    ensures (forall n :: 0 < n <= |attempts| ==> Present(attempts, n) == Recent(attempts, n)) <==> NeverLosing(attempts)
  {
    if NeverLosing(attempts) {
      forall n | 0 < n <= |attempts| ensures Present(attempts, n) == Recent(attempts, n) {
        PresentIsRecent(attempts, n);
      }
    } else {
      var i, n :| 0 <= i < n <= |attempts| && Remembered(attempts, i) && Covered(attempts, i, n)
                  && Overtaken(attempts, i, n);
      assert i in Recent(attempts, n) && i !in Present(attempts, n);
    }
  }

  /** Then the buffer is the recent part of the history, event by event. */
  lemma BufferIsRecentHistory(attempts: seq<Event>, now: Time)
    requires NeverLosing(attempts) && attempts != [] && now == attempts[|attempts| - 1].at
    ensures Buffer(attempts) == Kept(History(attempts), now - WINDOW_24H)
  {
    hide Present, Recent, Picked, Kept, Buffer, History, NeverLosing;
    var n := |attempts|;
    BufferAfter(attempts, n);
    WindowAfter(attempts, n);
    PresentIsRecent(attempts, n);
    assert attempts[..n] == attempts;
  }

  lemma RecentEventsCountTheSame(buffer: seq<Event>, history: seq<Event>, current: Event)
    requires buffer == Kept(history, current.at - WINDOW_24H)
    ensures CountsOver(buffer, current, current.at) == CountsOver(history, current, current.at)
  {
    hide CountsOver, Kept;
    PruningKeepsCounts(history, current, current.at);
  }

  /** And all seven counters read from it are those of the full history. */
  lemma CountersRefineHistory(attempts: seq<Event>, current: Event)
    requires NeverLosing(attempts) && attempts != [] && current == attempts[|attempts| - 1]
    ensures CountsOver(Buffer(attempts), current, current.at) == CountsOver(History(attempts), current, current.at)
  {
    hide CountsOver, Kept, Buffer, History, NeverLosing;
    BufferIsRecentHistory(attempts, current.at);
    RecentEventsCountTheSame(Buffer(attempts), History(attempts), current);
  }

  predicate ClockNeverStepsBack(attempts: seq<Event>) {
    forall i, j :: 0 <= i < j < |attempts| ==> attempts[i].at <= attempts[j].at
  }

  /** A clock that never steps back loses nothing, and no clock does over attempts within 24 hours. */
  lemma SteadyClockLosesNothing(attempts: seq<Event>)
    ensures ClockNeverStepsBack(attempts) ==> NeverLosing(attempts)
    ensures (forall i, j :: 0 <= i < j < |attempts| ==> attempts[j].at - attempts[i].at <= WINDOW_24H)
            ==> NeverLosing(attempts)
  {
  }

  // ---------- What each counter misses otherwise ----------

  function CountedBelow(attempts: seq<Event>, at: set<nat>, n: nat, counter: Counter, current: Event, now: Time)
    : set<nat>
    requires n <= |attempts|
  {
    set i | i in at && i < n && Counted(counter, current, now, attempts[i])
  }

  lemma CountedNext(attempts: seq<Event>, at: set<nat>, n: nat, counter: Counter, current: Event, now: Time)
    requires n < |attempts|
    ensures |CountedBelow(attempts, at, n + 1, counter, current, now)|
            == |CountedBelow(attempts, at, n, counter, current, now)|
               + if n in at && Counted(counter, current, now, attempts[n]) then 1 else 0
  {
    hide Counted;
    var before := CountedBelow(attempts, at, n, counter, current, now);
    var after := CountedBelow(attempts, at, n + 1, counter, current, now);
    assert after == if n in at && Counted(counter, current, now, attempts[n]) then before + {n} else before;
  }

  lemma {:induction false} CountPicked(attempts: seq<Event>, at: set<nat>, n: nat, counter: Counter, current: Event,
                                       now: Time)
    requires n <= |attempts|
    ensures CountOver(Picked(attempts, at, n), counter, current, now)
            == |CountedBelow(attempts, at, n, counter, current, now)|
  {
    if n == 0 {
      assert CountedBelow(attempts, at, 0, counter, current, now) == {};
      return;
    }
    hide Picked, Counted, CountOver, CountedBelow;
    CountPicked(attempts, at, n - 1, counter, current, now);
    CountedNext(attempts, at, n - 1, counter, current, now);
    PickedNext(attempts, at, n - 1);
    CountAppend(Picked(attempts, at, n - 1), attempts[n - 1], counter, current, now);
  }

  /** The events that a counter counts, of those at the given positions. */
  function CountedAt(attempts: seq<Event>, at: set<nat>, counter: Counter, current: Event, now: Time): set<nat> {
    CountedBelow(attempts, at, |attempts|, counter, current, now)
  }

  /** What the history knows and the buffer has lost; what the buffer took up again though the history knows it. */
  function Lost(attempts: seq<Event>): set<nat> {
    Known(attempts, |attempts|) - Present(attempts, |attempts|)
  }

  function TakenAgain(attempts: seq<Event>): set<nat> {
    Present(attempts, |attempts|) - Known(attempts, |attempts|)
  }

  lemma Differences(a: set<nat>, b: set<nat>)
    ensures |a| + |b - a| == |b| + |a - b|
  {
    assert a + (b - a) == b + (a - b);
  }

  lemma CountedDiffer(attempts: seq<Event>, counter: Counter, current: Event, now: Time)
    ensures var n := |attempts|;
            |CountedBelow(attempts, Present(attempts, n), n, counter, current, now)|
            + |CountedAt(attempts, Lost(attempts), counter, current, now)|
            == |CountedBelow(attempts, Known(attempts, n), n, counter, current, now)|
               + |CountedAt(attempts, TakenAgain(attempts), counter, current, now)|
  {
    hide Present, Known, Counted;
    var a := CountedAt(attempts, Present(attempts, |attempts|), counter, current, now);
    var b := CountedAt(attempts, Known(attempts, |attempts|), counter, current, now);
    assert CountedAt(attempts, Lost(attempts), counter, current, now) == b - a;
    assert CountedAt(attempts, TakenAgain(attempts), counter, current, now) == a - b;
    Differences(a, b);
  }

  /** Over any run, each of the five windowed counters is short of the history by exactly the lost attempts that it
      should count, and ahead of it by the repeats it took up again. */
  lemma CounterMissesTheLost(attempts: seq<Event>, counter: Counter, current: Event, now: Time)
    ensures CountOver(Buffer(attempts), counter, current, now)
            + |CountedAt(attempts, Lost(attempts), counter, current, now)|
            == CountOver(History(attempts), counter, current, now)
               + |CountedAt(attempts, TakenAgain(attempts), counter, current, now)|
  {
    hide Present, Known, Picked, CountOver, Buffer, History, CountedAt, Lost, TakenAgain;
    var n := |attempts|;
    BufferIsSurvivors(attempts);
    CountPicked(attempts, Present(attempts, n), n, counter, current, now);
    CountPicked(attempts, Known(attempts, n), n, counter, current, now);
    CountedDiffer(attempts, counter, current, now);
  }

  // ---------- Distinct cards ----------

  predicate LinkedAt(attempts: seq<Event>, at: set<nat>, link: Link, current: Event, now: Time, i: int) {
    0 <= i < |attempts| && i in at && Linked(link, current, now, attempts[i])
  }

  /** Some attempt at the given positions is linked and has the card. */
  ghost predicate CardAt(attempts: seq<Event>, at: set<nat>, link: Link, current: Event, now: Time, card: string) {
    exists i :: LinkedAt(attempts, at, link, current, now, i) && attempts[i].cardHash == card
  }

  lemma CardsByPosition(attempts: seq<Event>, at: set<nat>, link: Link, current: Event, now: Time, card: string)
    ensures card in CardsOver(Picked(attempts, at, |attempts|), link, current, now)
            <==> CardAt(attempts, at, link, current, now, card)
  {
    var picked := Picked(attempts, at, |attempts|);
    if card in CardsOver(picked, link, current, now) {
      var e :| e in picked && Linked(link, current, now, e) && e.cardHash == card;
      PickedMember(attempts, at, |attempts|, e);
      var i :| 0 <= i < |attempts| && i in at && attempts[i] == e;
      assert LinkedAt(attempts, at, link, current, now, i);
    }
    if i :| LinkedAt(attempts, at, link, current, now, i) && attempts[i].cardHash == card {
      PickedMember(attempts, at, |attempts|, attempts[i]);
    }
  }

  /** Over any run, the buffer shows the same distinct cards as the history exactly when the card of every linked
      attempt that was lost is also on a linked one that is present, and the card of every one taken up again
      on a linked one that is known. */
  lemma DistinctCardsExactly(attempts: seq<Event>, link: Link, current: Event, now: Time)
    ensures var n := |attempts|;
            CardsOver(Buffer(attempts), link, current, now) == CardsOver(History(attempts), link, current, now)
            <==> (forall i :: LinkedAt(attempts, Lost(attempts), link, current, now, i) ==>
                    CardAt(attempts, Present(attempts, n), link, current, now, attempts[i].cardHash))
                 && (forall i :: LinkedAt(attempts, TakenAgain(attempts), link, current, now, i) ==>
                    CardAt(attempts, Known(attempts, n), link, current, now, attempts[i].cardHash))
  {
    hide Present, Known, Picked, CardsOver, CardAt, LinkedAt, Buffer, History;
    BufferIsSurvivors(attempts);
    CardsAgree(attempts, Present(attempts, |attempts|), Known(attempts, |attempts|), link, current, now);
  }

  lemma CardsAgree(attempts: seq<Event>, p: set<nat>, k: set<nat>, link: Link, current: Event, now: Time)
    ensures CardsOver(Picked(attempts, p, |attempts|), link, current, now)
            == CardsOver(Picked(attempts, k, |attempts|), link, current, now)
            <==> (forall i :: LinkedAt(attempts, k - p, link, current, now, i) ==>
                    CardAt(attempts, p, link, current, now, attempts[i].cardHash))
                 && (forall i :: LinkedAt(attempts, p - k, link, current, now, i) ==>
                    CardAt(attempts, k, link, current, now, attempts[i].cardHash))
  {
    forall card
      ensures card in CardsOver(Picked(attempts, p, |attempts|), link, current, now)
              <==> CardAt(attempts, p, link, current, now, card)
      ensures card in CardsOver(Picked(attempts, k, |attempts|), link, current, now)
              <==> CardAt(attempts, k, link, current, now, card)
    {
      CardsByPosition(attempts, p, link, current, now, card);
      CardsByPosition(attempts, k, link, current, now, card);
    }
  }

  // ---------- Different requests ----------

  predicate FreshKeys(attempts: seq<Event>) {
    forall i, j :: 0 <= i < j < |attempts| ==> attempts[i].seenKey != attempts[j].seenKey
  }

  /** Different requests all go into the buffer and the history, so what is lost is what was overtaken. */
  lemma FreshPositions(attempts: seq<Event>)
    requires FreshKeys(attempts)
    ensures TakenAgain(attempts) == {}
    ensures Lost(attempts) == set i | 0 <= i < |attempts| && Overtaken(attempts, i, |attempts|)
  {
    forall i, j | 0 <= i < j < |attempts| ensures !SameKey(attempts, i, j) {}
    forall i | 0 <= i < |attempts| ensures Buffered(attempts, i) && Remembered(attempts, i) {}
  }

  lemma NoneLinked(attempts: seq<Event>, at: set<nat>, link: Link, current: Event, now: Time)
    requires at == {}
    ensures forall i :: !LinkedAt(attempts, at, link, current, now, i)
  {
  }

  lemma FreshCardsShown(attempts: seq<Event>, link: Link, current: Event, now: Time)
    requires FreshKeys(attempts)
    ensures CardsOver(Buffer(attempts), link, current, now) <= CardsOver(History(attempts), link, current, now)
  {
    hide CardsOver, Picked, Buffer, History, Overtaken, Linked, Buffered, Remembered;
    var p, k := Present(attempts, |attempts|), Known(attempts, |attempts|);
    FreshPositions(attempts);
    BufferIsSurvivors(attempts);
    assert p - k == {};
    forall card | card in CardsOver(Picked(attempts, p, |attempts|), link, current, now)
      ensures card in CardsOver(Picked(attempts, k, |attempts|), link, current, now)
    {
      CardsByPosition(attempts, p, link, current, now, card);
      CardsByPosition(attempts, k, link, current, now, card);
      var i :| LinkedAt(attempts, p, link, current, now, i) && attempts[i].cardHash == card;
      assert i !in p - k;
      assert LinkedAt(attempts, k, link, current, now, i);
    }
  }

  /** Of different requests the buffer never shows more distinct cards than the history, and as many exactly
      when the card of every linked attempt that was overtaken is also on a linked one that was not. */
  lemma FreshCardsExactly(attempts: seq<Event>, link: Link, current: Event, now: Time)
    requires FreshKeys(attempts)
    ensures var shown, known := CardsOver(Buffer(attempts), link, current, now),
                                CardsOver(History(attempts), link, current, now);
            && shown <= known
            && (|shown| == |known| <==>
                  forall i :: LinkedAt(attempts, Lost(attempts), link, current, now, i) ==>
                    CardAt(attempts, Present(attempts, |attempts|), link, current, now, attempts[i].cardHash))
  {
    hide Present, Known, Picked, CardsOver, LinkedAt, Buffer, History, Lost, TakenAgain, FreshKeys;
    var n := |attempts|;
    FreshPositions(attempts);
    BufferIsSurvivors(attempts);
    DistinctCardsExactly(attempts, link, current, now);
    FreshCardsShown(attempts, link, current, now);
    SameSize(CardsOver(Buffer(attempts), link, current, now), CardsOver(History(attempts), link, current, now));
    NoneLinked(attempts, TakenAgain(attempts), link, current, now);
  }

  lemma SameSize<T>(a: set<T>, b: set<T>)
    requires a <= b
    ensures |a| == |b| <==> a == b
  {
    assert b == a + (b - a);
  }

  lemma FreshPresent(attempts: seq<Event>)
    requires FreshKeys(attempts) && attempts != []
    ensures var n := |attempts|;
            && Present(attempts, n) <= Recent(attempts, n)
            && (Present(attempts, n) == Recent(attempts, n) <==>
                  forall i :: 0 <= i < n && Covered(attempts, i, n) ==> !Overtaken(attempts, i, n))
  {
    var n := |attempts|;
    forall i, j | 0 <= i < j < n ensures !SameKey(attempts, i, j) {}
    forall i | 0 <= i < n
      ensures i in Recent(attempts, n) <==> Covered(attempts, i, n)
      ensures i in Present(attempts, n) <==> !Overtaken(attempts, i, n)
      ensures Covered(attempts, i, n) || Overtaken(attempts, i, n)
    {}
  }

  /** Subsequences at nested positions are equal only at equal positions. */
  lemma PickedDiffer(attempts: seq<Event>, p: set<nat>, r: set<nat>, n: nat)
    requires n <= |attempts| && p <= r && forall i :: i in r ==> i < n
    ensures Picked(attempts, p, n) == Picked(attempts, r, n) <==> p == r
  {
    hide Picked;
    PickedLength(attempts, p, n);
    PickedLength(attempts, r, n);
    assert p == set i | i in p && i < n;
    assert r == set i | i in r && i < n;
    SameSize(p, r);
  }

  /** Of different requests, the buffer is the last 24 hours of the history at the end of the run exactly when none
      that they cover was overtaken. */
  lemma FreshRecentExactly(attempts: seq<Event>)
    requires FreshKeys(attempts) && attempts != []
    ensures Buffer(attempts) == Kept(History(attempts), attempts[|attempts| - 1].at - WINDOW_24H)
            <==> forall i :: 0 <= i < |attempts| && Covered(attempts, i, |attempts|) ==>
                   !Overtaken(attempts, i, |attempts|)
  {
    hide Picked, Kept, Buffer, History, Present, Covered, Overtaken, FreshKeys;
    var n := |attempts|;
    FreshPresent(attempts);
    BufferAfter(attempts, n);
    WindowAfter(attempts, n);
    assert attempts[..n] == attempts;
    PickedDiffer(attempts, Present(attempts, n), Recent(attempts, n), n);
  }

  // ---------- A run that loses an attempt ----------

  lemma LosesTheFirst(run: seq<Event>)
    requires |run| == 3 && FreshKeys(run)
    requires run[1].at == run[0].at + WINDOW_24H + 1 && run[2].at == run[0].at + WINDOW_1H
    ensures Lost(run) == {0} && TakenAgain(run) == {}
  {
    hide Lost, TakenAgain, FreshKeys;
    FreshPositions(run);
    assert run[0].at < run[1].at - WINDOW_24H;
    assert Overtaken(run, 0, 3) && !Overtaken(run, 1, 3) && !Overtaken(run, 2, 3);
  }

  lemma HistoryOfAll(run: seq<Event>)
    requires FreshKeys(run)
    ensures History(run) == run
  {
    forall i, j | 0 <= i < j < |run| ensures !SameKey(run, i, j) {}
    BufferIsSurvivors(run);
    PickedAll(run, Known(run, |run|), |run|);
    assert run[..|run|] == run;
  }

  lemma {:induction false} PickedAll(attempts: seq<Event>, at: set<nat>, n: nat)
    requires n <= |attempts| && forall i :: 0 <= i < n ==> i in at
    ensures Picked(attempts, at, n) == attempts[..n]
  {
    if n > 0 {
      PickedAll(attempts, at, n - 1);
      assert attempts[..n] == attempts[..n - 1] + [attempts[n - 1]];
    }
  }

  lemma AllCounted(a: Event, b: Event, c: Event)
    requires b.at == a.at + WINDOW_24H + 1 && c.at == a.at + WINDOW_1H
    requires a.merchantID == b.merchantID == c.merchantID && a.cardHash == b.cardHash == c.cardHash != ""
    ensures CountOver([a, b, c], Card1h, c, c.at) == 3
    ensures |CountedAt([a, b, c], {0}, Card1h, c, c.at)| == 1 && |CountedAt([a, b, c], {}, Card1h, c, c.at)| == 0
  {
    assert Counted(Card1h, c, c.at, a) && Counted(Card1h, c, c.at, b) && Counted(Card1h, c, c.at, c);
    CountOfThree(a, b, c, Card1h, c, c.at);
    hide Counted, CountOver;
    assert CountedAt([a, b, c], {0}, Card1h, c, c.at) == {0};
    assert CountedAt([a, b, c], {}, Card1h, c, c.at) == {};
  }

  lemma CountOfThree(a: Event, b: Event, c: Event, counter: Counter, current: Event, now: Time)
    requires Counted(counter, current, now, a) && Counted(counter, current, now, b) && Counted(counter, current, now, c)
    ensures CountOver([a, b, c], counter, current, now) == 3
  {
    assert CountOver([], counter, current, now) == 0;
    hide CountOver, Counted;
    CountAppend([], a, counter, current, now);
    CountAppend([a], b, counter, current, now);
    CountAppend([a, b], c, counter, current, now);
    assert [] + [a] == [a] && [a] + [b] == [a, b] && [a, b] + [c] == [a, b, c];
  }

  /** At 1 h the attempt at 0 h is one hour old, but one at just over 24 h has meanwhile pruned it: of three attempts
      with a card in the last hour, the counter misses one. */
  lemma StepBackLosesAttempts(a: Event, b: Event, c: Event)
    requires b.at == a.at + WINDOW_24H + 1 && c.at == a.at + WINDOW_1H
    requires a.seenKey != b.seenKey && a.seenKey != c.seenKey && b.seenKey != c.seenKey
    requires a.merchantID == b.merchantID == c.merchantID && a.cardHash == b.cardHash == c.cardHash != ""
    ensures CountOver(Buffer([a, b, c]), Card1h, c, c.at) == 2
    ensures CountOver(History([a, b, c]), Card1h, c, c.at) == 3
  {
    hide CountOver, Buffer, History, Counted, Picked;
    var run := [a, b, c];
    LosesTheFirst(run);
    HistoryOfAll(run);
    AllCounted(a, b, c);
    CounterMissesTheLost(run, Card1h, c, c.at);
  }
}
