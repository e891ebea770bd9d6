/** The exact conditions. A response queue is closed at most once, so whether its order
    survives depends on that one close alone: order is kept if and only if the close does
    not race with a launched Send, and how much the loop still receives is bounded if and
    only if it does not. */
module SecondLoop {
  import opened Data
  import opened Protocol
  import opened Stream
  import opened StreamInvariant
  import opened Mux
  import opened MuxInvariant
  import opened OneEnd
  import opened Inputs
  import opened Guarantees
  import opened Progress
  import opened Teardown
  import opened Race
  import Q = QueueHubModel

  // ---- a queue is closed once --------------------------------------------

  lemma GoneStep(c: Config, s: nat, v: Stream, a: Act, now: nat, d: Dir)
    requires Always(c, s, v) && Enabled(c, s, v, a) && v.b.At(d).t.tx.gone.Some?
    ensures Step(c, s, v, a, now).b.At(d).t.tx.gone.Some?
  {
    hide Always, Step, Enabled, RxStep, RxEnabled;
    StepEnds(c, s, v, a, now, d);
  }

  lemma GoneKept(c: Config, g: System, e: Event, s: nat)
    requires SystemAlways(c, g) && CanFire(c, g, e) && s < |g.ctls| && g.down.txs[s].gone.Some?
    ensures var g' := Fire(c, g, e); SystemAlways(c, g') && s < |g'.ctls| && g'.down.txs[s].gone.Some?
  {
    hide Always, CanFire, Fire, Step, Enabled;
    EventView(c, g, e, s);
    if e.On? && e.s == s {
      GoneStep(c, s, View(c, g, s), e.a, g.clock, Down);
    }
  }

  lemma NoSecondClose(c: Config, g: System, e: Event, s: nat)
    requires WellFormed(c, g) && CanFire(c, g, e) && s < |g.ctls| && g.down.txs[s].gone.Some?
    ensures TimelyEvent(c, g, e, s)
  {
  }

  /** After the close of its response queue, whatever a stream does comes in time. */
  lemma {:induction false} AfterClose(c: Config, g: System, evs: seq<Event>, g': System, s: nat)
    requires SystemAlways(c, g) && Leads(c, g, evs, g') && s < |g.ctls| && g.down.txs[s].gone.Some?
    ensures StreamTimely(c, g, evs, s)
    ensures SystemAlways(c, g') && s < |g'.ctls| && g'.down.txs[s].gone.Some?
    decreases |evs|
  {
    hide Always, Fire, CanFire, TimelyEvent, View;
    if evs != [] {
      NoSecondClose(c, g, evs[0], s);
      GoneKept(c, g, evs[0], s);
      AfterClose(c, Fire(c, g, evs[0]), evs[1..], g', s);
    }
  }

  lemma UntimelyCloses(c: Config, g: System, e: Event, s: nat)
    requires SystemAlways(c, g) && CanFire(c, g, e) && !TimelyEvent(c, g, e, s)
    ensures var g' := Fire(c, g, e); SystemAlways(c, g') && s < |g'.ctls| && g'.down.txs[s].gone.Some?
  {
    hide Always, CanFire, Fire, Step, View;
    EventKeeps(c, g, e);
    FireEnds(c, g, s, e.a);
  }

  /** Before it, too: a run that has not closed it yet had no close to come late. */
  lemma {:induction false} BeforeClose(c: Config, g: System, evs: seq<Event>, g': System, s: nat)
    requires SystemAlways(c, g) && Leads(c, g, evs, g') && WellFormed(c, g')
    requires s < |g'.ctls| ==> g'.down.txs[s].gone.None?
    ensures StreamTimely(c, g, evs, s)
    decreases |evs|
  {
    hide Always, Fire, CanFire, TimelyEvent, View;
    if evs != [] {
      var g1 := Fire(c, g, evs[0]);
      if !TimelyEvent(c, g, evs[0], s) {
        UntimelyCloses(c, g, evs[0], s);
        AfterClose(c, g1, evs[1..], g', s);
      } else {
        EventKeeps(c, g, evs[0]);
        BeforeClose(c, g1, evs[1..], g', s);
      }
    }
  }

  /** So until its response queue is closed a stream is sound in both directions, in
      every run. */
  lemma OpenIsSound(c: Config, evs: seq<Event>, g: System, s: nat, d: Dir)
    requires c.Valid() && Reaches(c, evs, g) && s < |g.ctls|
    requires WellFormed(c, g) && (d.Down? ==> g.down.txs[s].gone.None?)
    ensures SoundReaches(c, evs, g, s, d) && SystemAlways(c, g) && Sound(c, s, View(c, g, s), d)
  {
    hide Always, Ordered, Leads, StreamTimely, View;
    StartAlways(c);
    if d.Down? {
      BeforeClose(c, Start(c), evs, g, s);
    }
    ReachableSound(c, evs, g, s, d);
  }

  lemma ClosableIsOpen(c: Config, g: System, s: nat, d: Dir)
    requires WellFormed(c, g) && s < |g.ctls| && CanFire(c, g, On(s, Tx_(d, CloseQueue)))
    ensures g.At(d).txs[s].gone.None? && TxEnabled(c, EndsOf(g.At(d), s).t, CloseQueue)
  {
  }

  // ---- order -------------------------------------------------------------

  /** After the run `evs` to g, whatever happens next, order holds for s. */
  ghost predicate KeepsOrder(c: Config, evs: seq<Event>, g: System, s: nat, d: Dir) {
    forall more, g' :: Leads(c, g, more, g') ==> InOrderAt(c, evs + more, g', s, d)
  }

  /** What was written is a prefix of what the run delivered. */
  ghost predicate InOrderAt(c: Config, evs: seq<Event>, g: System, s: nat, d: Dir) {
    WellFormed(c, g) && s < |g.ctls| && g.At(d).rxs[s].out <= ReadBy(evs, s, d)
  }

  /** A close that does not race keeps order, whatever state it finds, whatever happened
      before and whatever follows. */
  lemma TimelyCloseKeepsOrder(c: Config, evs: seq<Event>, g: System, s: nat, d: Dir)
    requires c.Valid() && Reaches(c, evs, g) && WellFormed(c, g) && s < |g.ctls|
    requires CanFire(c, g, On(s, Tx_(d, CloseQueue))) && !Racing(g.At(d).txs[s])
    ensures var e := On(s, Tx_(d, CloseQueue)); KeepsOrder(c, evs + [e], Fire(c, g, e), s, d)
  {
    var e := On(s, Tx_(d, CloseQueue));
    hide Always, Ordered, Fire, CanFire, View, Leads, StreamTimely;
    ClosableIsOpen(c, g, s, d);
    OpenIsSound(c, evs, g, s, d);
    assert d.Down? ==> TimelyEvent(c, g, e, s);
    hide Racing, TimelyEvent, Tracks;
    var g1 := Fire(c, g, e);
    CloseSound(c, g, s, d);
    forall more, g' | Leads(c, g1, more, g') ensures InOrderAt(c, evs + [e] + more, g', s, d) {
      LeadsSound(c, g1, more, g', s, d);
      StreamInOrder(c, s, View(c, g', s), d);
      GoesOn(c, evs, g, e, more, g');
      InputAccounted(c, evs + [e] + more, g', s, d);
      assert InOrderAt(c, evs + [e] + more, g', s, d) by { ViewOut(c, g', s, d); }
    }
  }

  lemma GoesOn(c: Config, evs: seq<Event>, g: System, e: Event, more: seq<Event>, g': System)
    requires Reaches(c, evs, g) && WellFormed(c, g) && CanFire(c, g, e) && Leads(c, Fire(c, g, e), more, g')
    ensures Reaches(c, evs + [e] + more, g')
  {
    hide Leads, Fire, CanFire;
    LeadsOne(c, g, e);
    LeadsJoin(c, Start(c), evs, g, [e], Fire(c, g, e));
    LeadsJoin(c, Start(c), evs + [e], Fire(c, g, e), more, g');
  }

  lemma ViewOut(c: Config, g: System, s: nat, d: Dir)
    requires WellFormed(c, g) && s < |g.ctls|
    ensures View(c, g, s).b.At(d).r.rx == g.At(d).rxs[s] && View(c, g, s).b.At(d).t.tx == g.At(d).txs[s]
  {
  }

  lemma CloseSound(c: Config, g: System, s: nat, d: Dir)
    requires SystemAlways(c, g) && s < |g.ctls| && Sound(c, s, View(c, g, s), d)
    requires CanFire(c, g, On(s, Tx_(d, CloseQueue))) && (d.Down? ==> TimelyEvent(c, g, On(s, Tx_(d, CloseQueue)), s))
    ensures var g1 := Fire(c, g, On(s, Tx_(d, CloseQueue)));
      && SystemAlways(c, g1) && s < |g1.ctls| && Sound(c, s, View(c, g1, s), d)
      && (d.Down? ==> g1.down.txs[s].gone.Some?)
  {
    hide Always, Ordered, CanFire, Fire, View, TimelyEvent;
    var e := On(s, Tx_(d, CloseQueue));
    EventKeeps(c, g, e);
    FireShape(c, g, s, e.a);
    HoldsFor(c, Fire(c, g, e), s);
    if d.Down? {
      OrderedKept(c, g, e, s);
      ClosedIsGone(c, g, s);
    }
  }

  lemma ClosedIsGone(c: Config, g: System, s: nat)
    requires WellFormed(c, g) && s < |g.ctls| && CanFire(c, g, On(s, CLOSE))
    ensures var g1 := Fire(c, g, On(s, CLOSE)); s < |g1.down.txs| && g1.down.txs[s].gone.Some?
  {
    FireEnds(c, g, s, CLOSE);
    hide Fire;
  }

  lemma LeadsSound(c: Config, g: System, evs: seq<Event>, g': System, s: nat, d: Dir)
    requires SystemAlways(c, g) && s < |g.ctls| && Sound(c, s, View(c, g, s), d) && Leads(c, g, evs, g')
    requires d.Down? ==> g.down.txs[s].gone.Some?
    ensures SystemAlways(c, g') && s < |g'.ctls| && Sound(c, s, View(c, g', s), d)
  {
    hide Always, Ordered, View, Leads, StreamTimely;
    LeadsKeeps(c, g, evs, g');
    LeadsGrows(c, g, evs, g');
    if d.Down? {
      AfterClose(c, g, evs, g', s);
      LeadsOrdered(c, g, evs, g', s);
    }
    HoldsFor(c, g', s);
  }

  /** The race is exactly what breaks order. If a stream has been calm, whatever the
      others did, and two chunks are ahead that can be told apart, its close keeps order
      in every continuation if and only if it finds no launched Send before the guard
      while a loop has begun. */
  lemma CloseKeepsOrderIff(c: Config, evs: seq<Event>, g: System, s: nat, d: Dir)
    requires c.Valid() && OwnCalmReaches(c, evs, g, s) && WellFormed(c, g) && s < |g.ctls|
    requires CanFire(c, g, On(s, Tx_(d, CloseQueue))) && TwoAhead(EndsOf(g.At(d), s).t)
    ensures var e := On(s, Tx_(d, CloseQueue)); KeepsOrder(c, evs + [e], Fire(c, g, e), s, d) <==> !Racing(g.At(d).txs[s])
  {
    hide CanFire, Fire, Leads, OwnCalm, TwoAhead, CalmStream, Tracks;
    if !Racing(g.At(d).txs[s]) {
      TimelyCloseKeepsOrder(c, evs, g, s, d);
    } else {
      if d.Up? { ClientNeverRaces(c, evs, g, s); }
      OwnCalmReachable(c, evs, g, s);
      var more, g' := RaceBreaks(c, g, s);
      var e := On(s, Tx_(d, CloseQueue));
      GoesOn(c, evs, g, e, more, g');
      InputAccounted(c, evs + [e] + more, g', s, d);
      assert !InOrderAt(c, evs + [e] + more, g', s, d);
    }
  }

  // ---- how much the loop still takes -------------------------------------

  /** However the run goes on, the first loop receives at most k more chunks. */
  ghost predicate DrainsWithin(c: Config, g: System, s: nat, d: Dir, k: nat) {
    forall more, g' :: Leads(c, g, more, g') ==> Count(more, s, Tx_(d, SendTake)) <= k
  }

  ghost predicate BoundedDrain(c: Config, g: System, s: nat, d: Dir) {
    exists k: nat :: DrainsWithin(c, g, s, d, k)
  }

  /** The first loop runs, and no end mark is in its hand or in the channel. */
  predicate NoEndAhead(t: TxEnd) {
    && Begun(t.tx) && !t.tx.sender.Ended? && (t.tx.sender.Put? ==> !t.tx.sender.chunk.eof)
    && t.queue.Some? && NoEof(t.queue.value.buffer)
  }

  /** A loop on a closed queue whose status no longer says so, with no end mark ahead. */
  predicate Endless(n: nat, s: nat, t: TxEnd) {
    && t.tx.gone.Some? && t.tx.gone.value.status == StaSend && !t.tx.gone.value.open
    && Equipped(n, s, t.tx.gone.value) && NoEof(t.tx.gone.value.buffer)
    && LoopShape(n, t.tx.sender) && Begun(t.tx) && !t.tx.sender.Ended?
    && (t.tx.sender.Put? ==> !t.tx.sender.chunk.eof)
  }

  /** Such a loop has a next step, and goes on. */
  lemma EndlessStep(c: Config, s: nat, t: TxEnd, now: nat)
    requires c.Valid() && Endless(c.n, s, t)
    ensures var a := NextAct(t.tx.sender);
      && TxEnabled(c, t, a)
      && var t' := TxStep(c, t, a, now);
         Endless(c.n, s, t') && (!a.SendTake? ==> StepsToTake(t'.tx.sender) < StepsToTake(t.tx.sender))
  {
    hide Q.Ready;
    assert t.tx.sender.Put? ==> Order(s, c.n)[t.tx.sender.i] == Id(s, t.tx.sender.i);
  }

  /** It can take any number of further chunks, zero values once the channel is empty. */
  lemma {:induction false} TakesForever(c: Config, g: System, s: nat, m: nat)
    returns (evs: seq<Event>, g': System)
    requires c.Valid() && WellFormed(c, g) && s < |g.ctls| && Endless(c.n, s, EndsOf(g.down, s).t)
    ensures Leads(c, g, evs, g') && Count(evs, s, Tx_(Down, SendTake)) == m
    decreases m, StepsToTake(g.down.txs[s].sender)
  {
    hide Endless, TxEnabled, TxStep, CanFire, Fire, Leads;
    if m == 0 {
      evs, g' := [], g;
      LeadsNone(c, g);
    } else {
      var t := EndsOf(g.down, s).t;
      var a := NextAct(t.tx.sender);
      EndlessStep(c, s, t, g.clock);
      TxFires(c, g, s, a);
      var e := On(s, Tx_(Down, a));
      var g1 := Fire(c, g, e);
      var rest;
      rest, g' := TakesForever(c, g1, s, if a.SendTake? then m - 1 else m);
      evs := [e] + rest;
      LeadsOne(c, g, e);
      LeadsJoin(c, g, [e], g1, rest, g');
      assert evs[0] == e && evs[1..] == rest;
    }
  }

  lemma RacedIsEndless(c: Config, s: nat, t: TxEnd)
    requires c.Valid() && TxInv(c.n, s, t) && t.tx.gone.None? && Racing(t.tx) && NoEndAhead(t)
    ensures Endless(c.n, s, Raced(t))
  {
    hide Bytes, EofLast, SourceInv, Q.Ready;
  }

  /** Bounded drain fails with the race: for every m some continuation of the close lets
      the first loop receive m more chunks. */
  lemma RaceUnboundsDrain(c: Config, evs: seq<Event>, g: System, s: nat, m: nat)
    returns (more: seq<Event>, g': System)
    requires c.Valid() && Reaches(c, evs, g) && WellFormed(c, g) && s < |g.ctls|
    requires CanFire(c, g, On(s, CLOSE)) && Racing(g.down.txs[s]) && NoEndAhead(EndsOf(g.down, s).t)
    ensures Leads(c, Fire(c, g, On(s, CLOSE)), more, g') && Count(more, s, Tx_(Down, SendTake)) == m
  {
    hide CanFire, Fire, TxInv, TxEnabled, TxStep, Raced, Endless, Leads, NoEndAhead;
    CloseFacts(c, evs, g, s, Down);
    var t := EndsOf(g.down, s).t;
    CloseEnds(c, g, s);
    var g1, begin := Fire(c, g, On(s, CLOSE)), On(s, Tx_(Down, SendBegin));
    SecondLoopStarts(c, s, t, g.clock);
    TxFires(c, g1, s, SendBegin);
    var g2 := Fire(c, g1, begin);
    RacedIsEndless(c, s, t);
    var rest;
    rest, g' := TakesForever(c, g2, s, m);
    more := [begin] + rest;
    LeadsOne(c, g1, begin);
    LeadsJoin(c, g1, [begin], g2, rest, g');
    assert more[0] == begin && more[1..] == rest;
  }

  /** A close that can happen finds the sending side in order, in every run. */
  lemma CloseFacts(c: Config, evs: seq<Event>, g: System, s: nat, d: Dir)
    requires c.Valid() && Reaches(c, evs, g) && WellFormed(c, g) && s < |g.ctls|
    requires CanFire(c, g, On(s, Tx_(d, CloseQueue)))
    ensures TxInv(c.n, s, EndsOf(g.At(d), s).t) && TxEnabled(c, EndsOf(g.At(d), s).t, CloseQueue)
    ensures g.At(d).txs[s].gone.None?
  {
    hide Sound, SystemAlways, CanFire, TxInv, RxInv, TxEnabled, Leads, SoundReaches;
    ClosableIsOpen(c, g, s, d);
    OpenIsSound(c, evs, g, s, d);
    EndFacts(c, s, View(c, g, s), d);
  }

  lemma CloseEnds(c: Config, g: System, s: nat)
    requires WellFormed(c, g) && s < |g.ctls| && CanFire(c, g, On(s, CLOSE)) && TxEnabled(c, EndsOf(g.down, s).t, CloseQueue)
    ensures var g1 := Fire(c, g, On(s, CLOSE));
      && WellFormed(c, g1) && s < |g1.ctls| && g1.clock == g.clock + 1
      && EndsOf(g1.down, s).t == TxStep(c, EndsOf(g.down, s).t, CloseQueue, g.clock)
  {
    FireEnds(c, g, s, CLOSE);
    hide Fire, TxEnabled, TxStep;
  }

  /** A close that does not race leaves a loop that soon sees it. */
  lemma CloseWhileSending(c: Config, s: nat, t: TxEnd, now: nat)
    requires c.Valid() && TxInv(c.n, s, t) && TxEnabled(c, t, CloseQueue) && Begun(t.tx) && t.tx.pending == 0
    ensures ClosedWhileSending(TxStep(c, t, CloseQueue, now).tx)
  {
    hide Bytes, EofLast, NoEof, SourceInv, SenderInv, Equipped, Q.Ready;
  }

  /** A close of a running loop that does not race bounds what it still receives by n. */
  lemma CloseDrains(c: Config, evs: seq<Event>, g: System, s: nat, d: Dir)
    requires c.Valid() && Reaches(c, evs, g) && WellFormed(c, g) && s < |g.ctls|
    requires CanFire(c, g, On(s, Tx_(d, CloseQueue))) && Begun(g.At(d).txs[s]) && g.At(d).txs[s].pending == 0
    ensures DrainsWithin(c, Fire(c, g, On(s, Tx_(d, CloseQueue))), s, d, c.n)
  {
    var e := On(s, Tx_(d, CloseQueue));
    hide Always, CanFire, Fire, TxInv, TxEnabled, TxStep, Leads, ClosedWhileSending;
    ReachableAlways(c, evs, g);
    CloseFacts(c, evs, g, s, d);
    CloseWhileSending(c, s, EndsOf(g.At(d), s).t, g.clock);
    var g1 := Fire(c, g, e);
    EventKeeps(c, g, e);
    EndsAfterClose(c, g, s, d);
    forall more, g' | Leads(c, g1, more, g') ensures Count(more, s, Tx_(d, SendTake)) <= c.n {
      SenderDrains(c, g1, more, g', s, d);
    }
  }

  lemma EndsAfterClose(c: Config, g: System, s: nat, d: Dir)
    requires WellFormed(c, g) && s < |g.ctls| && CanFire(c, g, On(s, Tx_(d, CloseQueue)))
    requires TxEnabled(c, EndsOf(g.At(d), s).t, CloseQueue)
    ensures var g1 := Fire(c, g, On(s, Tx_(d, CloseQueue)));
      && WellFormed(c, g1) && s < |g1.ctls|
      && g1.At(d).txs[s] == TxStep(c, EndsOf(g.At(d), s).t, CloseQueue, g.clock).tx
  {
    FireShape(c, g, s, Tx_(d, CloseQueue));
    FireIs(c, g, s, Tx_(d, CloseQueue));
    hide Fire, TxEnabled, TxStep;
  }

  /** The race is exactly what unbounds the drain: for a close that finds a loop running
      with no end mark ahead, what the loop receives over all continuations is bounded if
      and only if the close does not race. */
  lemma DrainBoundedIff(c: Config, evs: seq<Event>, g: System, s: nat, d: Dir)
    requires c.Valid() && Reaches(c, evs, g) && WellFormed(c, g) && s < |g.ctls|
    requires CanFire(c, g, On(s, Tx_(d, CloseQueue))) && NoEndAhead(EndsOf(g.At(d), s).t)
    ensures BoundedDrain(c, Fire(c, g, On(s, Tx_(d, CloseQueue))), s, d) <==> !Racing(g.At(d).txs[s])
  {
    hide CanFire, Fire, Leads, Reaches;
    var g1 := Fire(c, g, On(s, Tx_(d, CloseQueue)));
    if !Racing(g.At(d).txs[s]) {
      CloseDrains(c, evs, g, s, d);
      assert DrainsWithin(c, g1, s, d, c.n);
    } else {
      if d.Up? { ClientNeverRaces(c, evs, g, s); }
      forall k: nat ensures !DrainsWithin(c, g1, s, d, k) {
        var more, g' := RaceUnboundsDrain(c, evs, g, s, k + 1);
        assert Leads(c, g1, more, g');
      }
    }
  }
}
