/** The race between a close and a launched Send.

    The queue barrier can launch Send twice. The guard turns the second one away
    because the status says one is running; but close overwrites that status, and a
    launched Send that reaches the guard only after the close starts a second loop with
    its own index. The two loops then share the remaining chunks. This file builds, from
    any state in which a close of a calm stream would race, a continuation that breaks
    its order: the raced system first runs along with the one that was not closed, until
    everything the stream sent before has been written. The other streams may be in any
    state; a message of theirs that is in the way is discarded after a close. */
module Race {
  import opened Data
  import opened RoundRobin
  import opened Protocol
  import opened Stream
  import opened StreamInvariant
  import opened Mux
  import opened MuxInvariant
  import opened Guarantees
  import opened Calm
  import opened Progress
  import opened Drain
  import Q = QueueHubModel
  import L = LinkHubModel

  /** A loop has begun, and another launched Send has not reached the guard yet. */
  predicate Racing(tx: Tx) {
    Begun(tx) && tx.pending > 0
  }

  /** On the client only one Send is ever launched, so nothing races there. */
  lemma ClientNeverRaces(c: Config, evs: seq<Event>, g: System, s: nat)
    requires c.Valid() && Reaches(c, evs, g) && s < |g.ctls|
    ensures WellFormed(c, g) && !Racing(g.up.txs[s])
  {
    ReachableAlways(c, evs, g);
    assert Always(c, s, View(c, g, s));
    hide UpWireInv, DownWireInv, UpLinksInv, DownLinksInv, DownQueueInv, TxInv, TxShape, RxInv, RxShape;
  }

  // ---- what the close and the late Send make of the sending side ---------

  /** The sending side after a close and a Send that reached the guard after it. */
  function Raced(t: TxEnd): TxEnd {
    if t.queue.None? || t.tx.pending == 0 then t
    else TxEnd(None, t.tx.(gone := Some(t.queue.value.(status := StaSend, open := false)),
                           pending := t.tx.pending - 1, extra := t.tx.extra + [Check]))
  }

  /** After a close, a launched Send starts a further loop exactly when one had begun. */
  lemma SecondLoopStarts(c: Config, s: nat, t: TxEnd, now: nat)
    requires c.Valid() && TxInv(c.n, s, t) && TxEnabled(c, t, CloseQueue) && t.tx.pending > 0
    ensures var t1 := TxStep(c, t, CloseQueue, now);
      && TxEnabled(c, t1, SendBegin)
      && (TxStep(c, t1, SendBegin, now + 1).tx.extra != [] <==> Begun(t.tx))
      && (Begun(t.tx) ==> TxStep(c, t1, SendBegin, now + 1) == Raced(t))
  {
    hide Bytes, Lane, EofLast, NoEof, SourceInv, SenderInv, Equipped, Q.Ready;
  }

  /** The first loop's own steps up to its next receive do not see the difference. */
  lemma RacedStep(c: Config, s: nat, t: TxEnd, a: TxAct, now: nat)
    requires c.Valid() && TxInv(c.n, s, t) && TxEnabled(c, t, a) && (a.SendPut? || a.SendCheck?)
    requires t.queue.Some? && t.tx.gone.None? && t.tx.pending > 0
    requires a.SendPut? ==> !t.tx.sender.chunk.eof
    ensures TxEnabled(c, Raced(t), a) && TxStep(c, Raced(t), a, now) == Raced(TxStep(c, t, a, now))
    ensures a.SendPut? ==> TxPost(c, Raced(t), now) == TxPost(c, t, now)
  {
    hide Bytes, Lane, EofLast, NoEof, SourceInv, Q.Ready;
  }

  // ---- the raced system runs along with the one that was not closed ------

  function SwapPlane(p: Plane, s: nat): Plane
    requires s < |p.txs| && s < |p.rxs|
  {
    p.(queues := p.queues - {Master(s)}, txs := p.txs[s := Raced(EndsOf(p, s).t).tx])
  }

  /** The same system with the race on the response direction of stream s. */
  function Swap(g: System, s: nat): System
    requires s < |g.down.txs| && s < |g.down.rxs|
  {
    g.(down := SwapPlane(g.down, s))
  }

  /** The queue of s is in the hub and another Send has been launched. */
  predicate Ready2(p: Plane, s: nat)
    requires s < |p.txs| && s < |p.rxs|
  {
    var t := EndsOf(p, s).t;
    t.queue.Some? && t.tx.gone.None? && t.tx.pending > 0
  }

  lemma PutSwapOther(p: Plane, s: nat, o: nat, e: Ends, w: seq<Wire>)
    requires s < |p.txs| == |p.rxs| && o < |p.txs| && o != s
    ensures PutEnds(SwapPlane(p, s), o, e).(wires := w) == SwapPlane(PutEnds(p, o, e).(wires := w), s)
    ensures EndsOf(PutEnds(p, o, e).(wires := w), s).t == EndsOf(p, s).t
  {
    hide Raced;
    assert Master(o) != Master(s);
    var l, r := PutEnds(SwapPlane(p, s), o, e), SwapPlane(PutEnds(p, o, e).(wires := w), s);
    assert l.queues == r.queues;
    assert l.txs == r.txs;
  }

  lemma PutSwapSelf(p: Plane, s: nat, e: Ends, w: seq<Wire>)
    requires s < |p.txs| == |p.rxs| && e.t.queue.Some? && e.t.tx.pending > 0
    ensures PutEnds(SwapPlane(p, s), s, e.(t := Raced(e.t))).(wires := w) == SwapPlane(PutEnds(p, s, e).(wires := w), s)
    ensures EndsOf(PutEnds(p, s, e).(wires := w), s).t == e.t
  {
    var l, r := PutEnds(SwapPlane(p, s), s, e.(t := Raced(e.t))), SwapPlane(PutEnds(p, s, e).(wires := w), s);
    assert l.queues == r.queues;
    assert l.txs == r.txs;
  }

  function RacedBoth(b: Both): Both {
    b.(down := b.down.(t := Raced(b.down.t)))
  }

  lemma SwapBoth(c: Config, g: System, s: nat, o: nat)
    requires WellFormed(c, g) && s < |g.ctls| && o < |g.ctls| && Ready2(g.down, s)
    ensures WellFormed(c, Swap(g, s)) && Swap(g, s).ctls == g.ctls && Swap(g, s).clock == g.clock
    ensures BothOf(Swap(g, s), o) == if o == s then RacedBoth(BothOf(g, s)) else BothOf(g, o)
  {
    assert o != s ==> Master(o) != Master(s);
  }

  /** Steps that bring responses to their destination do not involve the sender. */
  lemma CoreIgnoresTx(c: Config, s: nat, b: Both, a: Act, l: nat, now: nat, head: Option<Msg>)
    requires CoreEnabled(c, s, b, a, head) && Advances(a, Down, l) && (a.Receive? ==> head.value.Carry?)
    ensures CoreEnabled(c, s, RacedBoth(b), a, head)
    ensures Core(c, s, b, a, now, head).down.t == b.down.t
    ensures Core(c, s, RacedBoth(b), a, now, head) == RacedBoth(Core(c, s, b, a, now, head))
    ensures !a.Receive? ==> CorePost(c, s, b, a, now) == CorePost(c, s, RacedBoth(b), a, now) == None
  {
    hide Raced, RxStep, RxEnabled, TxStep, TxEnabled, Accept, L.SortLink, L.ConnectLink;
  }

  /** Events the two systems can take together: any event of another stream, a step
      towards the destination of s, or a step of its first loop up to its next receive. */
  ghost predicate Common(e: Event, s: nat) {
    e.On? && (e.s == s ==>
      || (exists l: nat :: Advances(e.a, Down, l))
      || e.a == Tx_(Down, SendCheck) || e.a == Tx_(Down, SendPut))
  }

  lemma DownIsCarry(c: Config, g: System, o: nat, a: Act)
    requires SystemAlways(c, g) && CanFire(c, g, On(o, a)) && a.Receive? && a.dir.Down?
    ensures SystemHead(g, a).Some? && SystemHead(g, a).value.Carry?
  {
    hide UpWireInv, UpLinksInv, DownLinksInv, UpQueueInv, DownQueueInv, TxInv, TxShape, RxInv, RxShape, Filter;
    HeadIsOwn(c, g, o, a);
    assert Always(c, o, View(c, g, o));
    assert View(c, g, o).down[a.lane][0] == SystemHead(g, a).value;
  }

  /** The core of the acting stream in both systems. */
  lemma CommonCore(c: Config, g: System, s: nat, e: Event)
    requires c.Valid() && WellFormed(c, g) && s < |g.ctls| && Ready2(g.down, s) && CanFire(c, g, e) && Common(e, s)
    requires TxInv(c.n, s, EndsOf(g.down, s).t)
    requires e.s == s && e.a.Receive? ==> SystemHead(g, e.a).Some? && SystemHead(g, e.a).value.Carry?
    requires e.s == s && e.a == Tx_(Down, SendPut) ==> g.down.txs[s].sender.Put? && !g.down.txs[s].sender.chunk.eof
    ensures e.s < |g.ctls| && WellFormed(c, Swap(g, s)) && CanFire(c, Swap(g, s), e)
    ensures var b, b' := BothOf(g, e.s), BothOf(Swap(g, s), e.s);
      var r, r' := Core(c, e.s, b, e.a, g.clock, SystemHead(g, e.a)), Core(c, e.s, b', e.a, g.clock, SystemHead(g, e.a));
      && (e.s == s ==> r' == RacedBoth(r) && r.down.t.queue.Some? && r.down.t.tx.pending > 0 && r.down.t.tx.gone.None?)
      && (e.s != s ==> r' == r)
      && (!e.a.Receive? && !e.a.Discard? ==> CorePost(c, e.s, b', e.a, g.clock) == CorePost(c, e.s, b, e.a, g.clock))
  {
    hide TxInv, Core, CoreEnabled, CorePost, Raced, Swap;
    StreamExists(c, g, e.s, e.a);
    SwapBoth(c, g, s, e.s);
    assert SystemHead(Swap(g, s), e.a) == SystemHead(g, e.a) by { SwapHead(g, s, e.a); }
    if e.s == s {
      if l: nat :| Advances(e.a, Down, l) {
        CoreIgnoresTx(c, s, BothOf(g, s), e.a, l, g.clock, SystemHead(g, e.a));
      } else {
        CoreOfLoop(c, g, s, e.a.tx);
      }
    }
  }

  lemma SwapHead(g: System, s: nat, a: Act)
    requires s < |g.down.txs| && s < |g.down.rxs|
    ensures SystemHead(Swap(g, s), a) == SystemHead(g, a)
  {
  }

  lemma CoreOfLoop(c: Config, g: System, s: nat, x: TxAct)
    requires c.Valid() && WellFormed(c, g) && s < |g.ctls| && Ready2(g.down, s) && CanFire(c, g, On(s, Tx_(Down, x)))
    requires TxInv(c.n, s, EndsOf(g.down, s).t)
    requires x.SendCheck? || x.SendPut?
    requires x.SendPut? ==> g.down.txs[s].sender.Put? && !g.down.txs[s].sender.chunk.eof
    ensures var b, a := BothOf(g, s), Tx_(Down, x);
      && CoreEnabled(c, s, RacedBoth(b), a, None)
      && Core(c, s, RacedBoth(b), a, g.clock, None) == RacedBoth(Core(c, s, b, a, g.clock, None))
      && CorePost(c, s, RacedBoth(b), a, g.clock) == CorePost(c, s, b, a, g.clock)
      && var t := Core(c, s, b, a, g.clock, None).down.t;
         t.queue.Some? && t.tx.pending > 0 && t.tx.gone.None?
  {
    hide Raced, TxInv;
    RacedStep(c, s, EndsOf(g.down, s).t, x, g.clock);
  }

  /** One event in both systems. */
  lemma Commutes(c: Config, g: System, s: nat, e: Event)
    requires CalmStream(c, g, s) && Ready2(g.down, s) && CanFire(c, g, e) && Common(e, s)
    requires e.s == s && e.a == Tx_(Down, SendPut) ==> g.down.txs[s].sender.Put? && !g.down.txs[s].sender.chunk.eof
    ensures WellFormed(c, Swap(g, s)) && CanFire(c, Swap(g, s), e)
    ensures var g' := Fire(c, g, e);
      && WellFormed(c, g') && |g'.ctls| == |g.ctls| && Ready2(g'.down, s)
      && Fire(c, Swap(g, s), e) == Swap(g', s)
  {
    DownParts(c, g, s);
    if e.s == s && e.a.Receive? {
      OwnReceive(e, s);
      DownIsCarry(c, g, s, e.a);
    }
    CommonCore(c, g, s, e);
    SwapHead(g, s, e.a);
    SwapBoth(c, g, s, e.s);
    FireIs(c, g, e.s, e.a);
    FireIs(c, Swap(g, s), e.s, e.a);
    SameWires(c, g, s, e);
    hide CalmStream, TxInv, CalmTx, Core, CoreEnabled, CorePost, Raced, Fire, PutEnds, Swap, CanFire, WiresAfter, EndsOf, WellFormed, Ready2;
    var b := Core(c, e.s, BothOf(g, e.s), e.a, g.clock, SystemHead(g, e.a));
    var b' := Core(c, e.s, BothOf(Swap(g, s), e.s), e.a, g.clock, SystemHead(g, e.a));
    SwapPut(c, g, s, e.s, b, b', WiresAfter(c, g, e.s, e.a, Up), WiresAfter(c, g, e.s, e.a, Down));
    FireShape(c, g, e.s, e.a);
  }

  lemma OwnReceive(e: Event, s: nat)
    requires Common(e, s) && e.s == s && e.a.Receive?
    ensures e.a.dir.Down?
  {
  }

  /** The state that FireIs describes. */
  function Put(g: System, s: nat, b: Both, up: seq<Wire>, down: seq<Wire>): System
    requires s < |g.ctls| == |g.up.txs| == |g.up.rxs| == |g.down.txs| == |g.down.rxs|
  {
    System(g.clock + 1, PutEnds(g.up, s, b.up).(wires := up), PutEnds(g.down, s, b.down).(wires := down), g.ctls[s := b.ctl])
  }

  lemma SwapPut(c: Config, g: System, s: nat, o: nat, b: Both, b': Both, up: seq<Wire>, down: seq<Wire>)
    requires WellFormed(c, g) && s < |g.ctls| && o < |g.ctls| && Ready2(g.down, s) && WellFormed(c, Swap(g, s))
    requires o == s ==> b' == RacedBoth(b) && b.down.t.queue.Some? && b.down.t.tx.pending > 0 && b.down.t.tx.gone.None?
    requires o != s ==> b' == b
    ensures var g' := Put(g, o, b, up, down);
      && s < |g'.down.txs| == |g'.down.rxs| && Ready2(g'.down, s) && Put(Swap(g, s), o, b', up, down) == Swap(g', s)
  {
    hide Raced;
    if o == s {
      PutSwapSelf(g.down, s, b.down, down);
    } else {
      PutSwapOther(g.down, s, o, b.down, down);
    }
  }

  lemma FireIs(c: Config, g: System, s: nat, a: Act)
    requires WellFormed(c, g) && CanFire(c, g, On(s, a))
    ensures s < |g.ctls|
    ensures var b := Core(c, s, BothOf(g, s), a, g.clock, SystemHead(g, a));
      Fire(c, g, On(s, a)) == Put(g, s, b, WiresAfter(c, g, s, a, Up), WiresAfter(c, g, s, a, Down))
  {
    hide Core, CorePost;
  }

  lemma SameWires(c: Config, g: System, s: nat, e: Event)
    requires WellFormed(c, g) && s < |g.ctls| && CanFire(c, g, e) && e.On?
    requires WellFormed(c, Swap(g, s)) && CanFire(c, Swap(g, s), e)
    requires !e.a.Receive? && !e.a.Discard? ==>
      CorePost(c, e.s, BothOf(Swap(g, s), e.s), e.a, g.clock) == CorePost(c, e.s, BothOf(g, e.s), e.a, g.clock)
    ensures WiresAfter(c, Swap(g, s), e.s, e.a, Up) == WiresAfter(c, g, e.s, e.a, Up)
    ensures WiresAfter(c, Swap(g, s), e.s, e.a, Down) == WiresAfter(c, g, e.s, e.a, Down)
  {
    hide Core, CorePost, CoreEnabled, Raced;
  }

  // ---- everything sent is written out first ------------------------------

  /** A lane whose next message is of another stream, or none. */
  predicate Foreign(wires: seq<Wire>, l: nat, s: nat) {
    Head(wires, l).Some? && wires[l][0].id.stream != s
  }

  /** Nothing but the sender of s has a step left towards its destination. */
  ghost predicate Parked(c: Config, g: System, s: nat)
    requires WellFormed(c, g)
  {
    (forall l: nat :: !Foreign(g.down.wires, l, s)) && (forall l: nat :: Stuck(c, g, s, Down, l))
  }

  /** The events take both systems to g' and leave the sender of s as it is. */
  ghost predicate Together(c: Config, g: System, s: nat, evs: seq<Event>, g': System) {
    && CalmStream(c, g, s) && CalmStream(c, g', s) && |g'.ctls| == |g.ctls|
    && EndsOf(g'.down, s).t == EndsOf(g.down, s).t
    && Leads(c, Swap(g, s), evs, Swap(g', s)) && forall e <- evs :: NoClose(e)
  }

  lemma Stays(c: Config, g: System, s: nat)
    requires CalmStream(c, g, s)
    ensures Together(c, g, s, [], g)
  {
    hide CalmStream, Swap, EndsOf;
    StreamOf(c, g, s);
  }

  lemma TogetherJoin(c: Config, g: System, s: nat, xs: seq<Event>, g1: System, ys: seq<Event>, g2: System)
    requires Together(c, g, s, xs, g1) && Together(c, g1, s, ys, g2)
    ensures Together(c, g, s, xs + ys, g2)
  {
    hide CalmStream, Swap, EndsOf, Leads, NoClose;
    StreamOf(c, g, s);
    StreamOf(c, g1, s);
    StreamOf(c, g2, s);
    LeadsJoin(c, Swap(g, s), xs, Swap(g1, s), ys, Swap(g2, s));
  }

  /** The sender of s takes no part in such a step. */
  lemma KeepsTx(c: Config, g: System, s: nat, o: nat, a: Act)
    requires SystemAlways(c, g) && s < |g.ctls| && CanFire(c, g, On(o, a))
    requires o == s ==> exists l: nat :: Advances(a, Down, l)
    ensures var g' := Fire(c, g, On(o, a));
      WellFormed(c, g') && |g'.ctls| == |g.ctls| && EndsOf(g'.down, s).t == EndsOf(g.down, s).t
  {
    FireShape(c, g, o, a);
    FireIs(c, g, o, a);
    if o == s {
      var l: nat :| Advances(a, Down, l);
      if a.Receive? { DownIsCarry(c, g, o, a); }
      CoreIgnoresTx(c, o, BothOf(g, o), a, l, g.clock, SystemHead(g, a));
    }
    hide Always, Core, CoreEnabled, CorePost, Raced, Fire, WiresAfter;
    assert o != s ==> Master(o) != Master(s);
  }

  lemma OneTogether(c: Config, g: System, s: nat, o: nat, a: Act) returns (g': System)
    requires CalmStream(c, g, s) && Ready2(g.down, s) && CanFire(c, g, On(o, a))
    requires o == s ==> exists l: nat :: Advances(a, Down, l)
    requires o != s ==> !(a.Tx_? && a.tx.CloseQueue?)
    ensures g' == Fire(c, g, On(o, a)) && Together(c, g, s, [On(o, a)], g') && Ready2(g'.down, s)
  {
    hide Always, CalmInv, Ordered, Raced, View, CanFire, Fire, Swap, EndsOf;
    var e := On(o, a);
    g' := Fire(c, g, e);
    AdvanceIsCalm(a, o, s);
    CalmStreamKept(c, g, e, s);
    KeepsTx(c, g, s, o, a);
    Commutes(c, g, s, e);
    LeadsOne(c, Swap(g, s), e);
  }

  lemma AdvanceIsCalm(a: Act, o: nat, s: nat)
    requires o == s ==> exists l: nat :: Advances(a, Down, l)
    requires o != s ==> !(a.Tx_? && a.tx.CloseQueue?)
    ensures OwnCalm(On(o, a), s) && NoClose(On(o, a)) && Common(On(o, a), s)
  {
  }

  // ---- messages of other streams are discarded ---------------------------

  /** Streams with responses on a wire have their client links, and may be closed. */
  lemma ForeignMayClose(c: Config, g: System, l: nat)
    requires SystemAlways(c, g) && Head(g.down.wires, l).Some?
    ensures var m := g.down.wires[l][0];
      m.Carry? && m.id.stream < |g.ctls| && g.ctls[m.id.stream].added == c.n
  {
    hide UpWireInv, UpLinksInv, DownLinksInv, UpQueueInv, DownQueueInv, TxInv, TxShape, RxInv, RxShape, Filter;
    HeadStreamExists(c, g, Down, l);
    var o := g.down.wires[l][0].id.stream;
    MineDropped(g.down.wires, l, o);
    assert Always(c, o, View(c, g, o));
    assert View(c, g, o).down[l][0] == g.down.wires[l][0];
  }

  lemma CloseOther(c: Config, g: System, o: nat)
    requires WellFormed(c, g) && o < |g.ctls| && !g.down.rxs[o].removed && g.ctls[o].added == c.n
    ensures var e := On(o, Rx_(Down, CloseLinks));
      && CanFire(c, g, e)
      && var g' := Fire(c, g, e); |g'.down.rxs| == |g.down.rxs| && g'.down.rxs[o].removed && g'.down.wires == g.down.wires
  {
    hide L.RemoveGroup;
  }

  lemma DiscardOther(c: Config, g: System, o: nat, l: nat)
    requires WellFormed(c, g) && o < |g.ctls| && g.down.rxs[o].removed
    requires Head(g.down.wires, l).Some? && g.down.wires[l][0].Carry? && g.down.wires[l][0].id.stream == o
    ensures CanFire(c, g, On(o, Discard(Down, l)))
    ensures Total(Fire(c, g, On(o, Discard(Down, l))).down.wires) < Total(g.down.wires)
  {
    hide Total;
    TotalUpdate(g.down.wires, l, g.down.wires[l][1..]);
  }

  /** A message of another stream is taken off, in both systems. */
  lemma DropForeign(c: Config, g: System, s: nat, l: nat) returns (evs: seq<Event>, g': System)
    requires CalmStream(c, g, s) && Ready2(g.down, s) && Foreign(g.down.wires, l, s)
    ensures Together(c, g, s, evs, g') && Ready2(g'.down, s) && Total(g'.down.wires) < Total(g.down.wires)
  {
    hide CalmStream, SystemAlways, Together, Ready2, CanFire, Fire, Total;
    StreamOf(c, g, s);
    ForeignMayClose(c, g, l);
    var o := g.down.wires[l][0].id.stream;
    var a, g1 := [], g;
    Stays(c, g, s);
    if !g.down.rxs[o].removed {
      CloseOther(c, g, o);
      g1 := OneTogether(c, g, s, o, Rx_(Down, CloseLinks));
      a := [On(o, Rx_(Down, CloseLinks))];
      TogetherShape(c, g, s, a, g1);
    }
    DiscardOther(c, g1, o, l);
    g' := OneTogether(c, g1, s, o, Discard(Down, l));
    evs := a + [On(o, Discard(Down, l))];
    TogetherJoin(c, g, s, a, g1, [On(o, Discard(Down, l))], g');
  }

  lemma TogetherShape(c: Config, g: System, s: nat, evs: seq<Event>, g': System)
    requires Together(c, g, s, evs, g')
    ensures CalmStream(c, g', s) && SystemAlways(c, g') && WellFormed(c, g') && s < |g'.ctls| == |g.ctls|
  {
    hide CalmStream, Swap, EndsOf, Leads, NoClose;
    StreamOf(c, g', s);
  }

  // ---- the responses of s are brought to their destination ---------------

  /** Remaining hops of one stream. */
  function WeightOf(c: Config, g: System, s: nat): int
    requires WellFormed(c, g) && s < |g.ctls|
  {
    BothWeight(c.n, BothOf(g, s))
  }

  lemma WeightOfIsNat(c: Config, g: System, s: nat)
    requires CalmStream(c, g, s)
    ensures WeightOf(c, g, s) >= 0
  {
    hide Always, Ordered, CalmInv, BothWeight;
    WeightIsNat(c, s, View(c, g, s));
    ViewWeight(c, g, s);
  }

  /** Such a step takes a message off or leaves fewer steps to go. */
  lemma AdvanceLighter(c: Config, g: System, s: nat, a: Act, l: nat)
    requires CalmStream(c, g, s) && CanFire(c, g, On(s, a)) && Advances(a, Down, l)
    ensures var g' := Fire(c, g, On(s, a));
      && WellFormed(c, g') && s < |g'.ctls|
      && (Total(g'.down.wires) < Total(g.down.wires)
          || (g'.down.wires == g.down.wires && WeightOf(c, g', s) < WeightOf(c, g, s)))
  {
    hide Always, Ordered, CalmInv, CanFire, Fire, View, Step, Enabled, BothWeight, Total;
    var g' := Fire(c, g, On(s, a));
    Projection(c, g, g', s, a);
    AdvanceIsInternal(a, l);
    ViewWeight(c, g, s);
    ViewWeight(c, g', s);
    StepLighter(c, s, View(c, g, s), a, g.clock);
    WiresOfAdvance(c, g, s, a, l);
  }

  lemma AdvanceIsInternal(a: Act, l: nat)
    requires Advances(a, Down, l)
    ensures Internal(a) && (!a.Receive? ==> Traffic(a) == 0)
  {
  }

  lemma WiresOfAdvance(c: Config, g: System, s: nat, a: Act, l: nat)
    requires WellFormed(c, g) && CanFire(c, g, On(s, a)) && Advances(a, Down, l)
    ensures var w, w' := g.down.wires, Fire(c, g, On(s, a)).down.wires;
      if a.Receive? then Total(w') < Total(w) else w' == w
  {
    FireParts(c, g, s, a);
    hide Fire, Core, Total, RxEnabled;
    if a.Receive? {
      TotalUpdate(g.down.wires, a.lane, g.down.wires[a.lane][1..]);
    }
  }

  /** Both systems take steps until the merge of s waits for its sender. */
  lemma {:induction false} DrainTogether(c: Config, g: System, s: nat) returns (evs: seq<Event>, g': System)
    requires CalmStream(c, g, s) && Ready2(g.down, s)
    ensures Together(c, g, s, evs, g') && Ready2(g'.down, s)
    ensures WellFormed(c, g') && Parked(c, g', s)
    decreases Total(g.down.wires), WeightOf(c, g, s)
  {
    hide CalmStream, Together, Ready2, CanFire, Fire, Advances, Total, WeightOf, Foreign;
    StreamOf(c, g, s);
    WeightOfIsNat(c, g, s);
    evs, g' := [], g;
    Stays(c, g, s);
    if l: nat :| Foreign(g.down.wires, l, s) {
      evs, g' := DropForeign(c, g, s, l);
    } else if l: nat, a: Act :| Advances(a, Down, l) && CanFire(c, g, On(s, a)) {
      g' := OneTogether(c, g, s, s, a);
      evs := [On(s, a)];
      AdvanceLighter(c, g, s, a, l);
    } else {
      return;
    }
    TogetherShape(c, g, s, evs, g');
    WeightOfIsNat(c, g', s);
    var rest, last := DrainTogether(c, g', s);
    TogetherJoin(c, g, s, evs, g', rest, last);
    evs, g' := evs + rest, last;
  }

  /** Then no message is on any response wire. */
  lemma ParkedIsEmpty(c: Config, g: System, s: nat, l: nat)
    requires CalmStream(c, g, s) && Parked(c, g, s) && l < |g.down.wires|
    ensures g.down.wires[l] == []
  {
    hide CalmStream, SystemAlways, Stuck, View, RxInv, CalmRx, L.Waiting, Filter, Items, Lane;
    StreamOf(c, g, s);
    if g.down.wires[l] != [] {
      assert g.At(Down) == g.down;
      assert !Foreign(g.down.wires, l, s);
      BlockedReader(c, g, Down, l);
      EmptyOrHead(c, g, s, l);
      var j := WaitedLane(c, g, s, l);
      assert !Foreign(g.down.wires, j, s);
      BlockedReader(c, g, Down, j);
    }
  }

  lemma EmptyOrHead(c: Config, g: System, s: nat, l: nat)
    requires WellFormed(c, g) && s < |g.ctls| && Head(View(c, g, s).Wires(Down), l).Some?
    ensures Head(Mine(g.down.wires, s), l).Some? && View(c, g, s).b.At(Down) == View(c, g, s).b.down
  {
  }

  /** The lane of the chunk the merge waits for has a message, and an empty link. */
  lemma WaitedLane(c: Config, g: System, s: nat, l: nat) returns (j: nat)
    requires CalmStream(c, g, s) && Stuck(c, g, s, Down, l) && l < |g.down.wires| && Head(Mine(g.down.wires, s), l).Some?
    requires L.Waiting(View(c, g, s).b.down.r.links, Id(s, l)) != []
    ensures j < |g.down.wires| && g.down.wires[j] != []
    ensures L.Waiting(View(c, g, s).b.down.r.links, Id(s, j)) == []
  {
    hide CalmStream, SystemAlways, Stuck, RxInv, CalmRx, L.Waiting, Filter, Items, Lane;
    StreamOf(c, g, s);
    EstBeforeResponse(c, g, l, s);
    MergerLaunched(c, g, s, Down, l);
    QuietMerger(c, g, s, Down, l);
    MergerParts(c, g, s, Down);
    var v := View(c, g, s);
    WaitsElsewhere(c.n, s, v.b.down.t.tx.dealt, v.b.down.r, v.down, l);
    j := Lane(v.b.down.r.rx.popped, c.n);
    var m := ItemsMember(v.down[j], v.b.down.t.tx.dealt[v.b.down.r.rx.popped]);
    FilterMember(g.down.wires[j], s, m);
  }

  /** Then the merge of s waits for the next chunk, on the lane of its position. */
  lemma DrainedState(c: Config, g: System, s: nat)
    requires CalmStream(c, g, s) && g.down.txs[s].sender.Take? && Parked(c, g, s)
    ensures var tx, rx, links := g.down.txs[s], g.down.rxs[s], g.down.links;
      var i := tx.sender.i;
      && rx.merger == Read(i, None) && i < c.n && rx.order == Order(s, c.n)
      && Id(s, i) in links && links[Id(s, i)].buffer == [] && links[Id(s, i)].status != StaDone
      && rx.out == Sent(tx.dealt, |tx.dealt|)
  {
    hide CalmStream, SystemAlways, Stuck, View, RxInv, TxInv, CalmRx, Sent, Lane, L.Waiting;
    SendingParts(c, g, s);
    StreamOf(c, g, s);
    NoWires(c, g, s);
    MergerParts(c, g, s, Down);
    MergerLaunched(c, g, s, Down, 0);
    QuietMerger(c, g, s, Down, 0);
    EmptyView(c, g, s);
    var v := View(c, g, s);
    NoEarlyEnd(c.n, s, v.b.down, v.down);
    MergerAt(c.n, s, g.down.txs[s].dealt, v.b.down.r, v.down);
    OwnAgrees(g.down.links, s);
    NotDone(v.b.down.r.links, g.down.links, s, g.down.txs[s].sender.i);
  }

  lemma EmptyView(c: Config, g: System, s: nat)
    requires WellFormed(c, g) && s < |g.ctls| && forall j :: 0 <= j < |g.down.wires| ==> g.down.wires[j] == []
    ensures var v := View(c, g, s);
      && v.Wires(Down) == v.down && |v.down| == c.n && (forall j :: 0 <= j < c.n ==> v.down[j] == [])
      && v.b.At(Down) == v.b.down && v.b.down.r.rx == g.down.rxs[s] && v.b.down.r.links == Own(g.down.links, s)
      && v.b.down.t.tx == g.down.txs[s] && v.b.down.r == v.b.At(Down).r
  {
    hide Own;
  }

  lemma NotDone(own: Hub, links: Hub, s: nat, i: nat)
    requires own == Own(links, s) && NoneDone(own) && Id(s, i) in own && L.Waiting(own, Id(s, i)) == []
    ensures Id(s, i) in links && links[Id(s, i)].buffer == [] && links[Id(s, i)].status != StaDone
  {
  }

  lemma MergerAt(n: nat, s: nat, dealt: seq<Item>, r: RxEnd, wires: seq<Wire>)
    requires n >= 1 && |wires| == n && RxInv(n, s, dealt, r, wires) && r.rx.merger.Read? && r.rx.merger.orphan.None?
    requires (forall j :: 0 <= j < n ==> wires[j] == []) && CalmRx(r.rx) && L.Waiting(r.links, Id(s, r.rx.merger.j)) == []
    ensures r.rx.order == Order(s, n) && Id(s, r.rx.merger.j) in r.links && NoneDone(r.links)
    ensures r.rx.out == Sent(dealt, |dealt|) && r.rx.merger.j == Lane(|dealt|, n) && r.rx.merger.j < n
  {
    DrainedMerger(n, s, dealt, r, wires);
    hide Lanes, Stripe, Sent, ShutInv, RemovedInv, NoneDone, Lane;
  }

  /** A loop that is about to receive: the set-up is through, and its index is the lane
      of the next chunk. */
  lemma SendingParts(c: Config, g: System, s: nat)
    requires CalmStream(c, g, s) && g.down.txs[s].sender.Take?
    ensures WellFormed(c, g) && c.Valid() && g.ctls[s].est
    ensures TxInv(c.n, s, View(c, g, s).b.down.t) && View(c, g, s).b.down.t == EndsOf(g.down, s).t
    ensures g.down.txs[s].sender.i == Lane(|g.down.txs[s].dealt|, c.n)
  {
    hide UpWireInv, DownWireInv, UpLinksInv, DownLinksInv, UpQueueInv, RxInv, CalmInv, Lane, Bytes, EofLast, SourceInv, ObjectInv;
  }

  lemma NoEarlyEnd(n: nat, s: nat, e: Ends, wires: seq<Wire>)
    requires n >= 1 && |wires| == n && TxInv(n, s, e.t) && RxInv(n, s, e.t.tx.dealt, e.r, wires) && CalmRx(e.r.rx)
    requires e.t.tx.sender.Take?
    ensures !e.r.rx.merger.Over?
  {
    hide Lanes, Lane, MergerInv, RemovedInv, Bytes, EofLast, SourceInv, ObjectInv, Sent;
  }

  // ---- the second loop takes one chunk, the first sends the one after it -

  /** Where the two loops stand after the race: x in the hand of the second, y sent. */
  lemma LoopsShare(c: Config, s: nat, t: TxEnd, now: nat)
    requires c.Valid() && TxInv(c.n, s, t) && t.queue.Some? && t.tx.gone.None? && t.tx.pending > 0
    requires t.tx.sender.Take? && |t.queue.value.buffer| >= 2
    ensures var i, y := t.tx.sender.i, t.queue.value.buffer[1];
      && AgainEnabled(c, Raced(t), 0, SendCheck)
      && var t1 := AgainStep(c, Raced(t), 0, SendCheck, now);
         && AgainEnabled(c, t1, 0, SendTake)
         && var t2 := AgainStep(c, t1, 0, SendTake, now + 1);
            && TxEnabled(c, t2, SendTake)
            && var t3 := TxStep(c, t2, SendTake, now + 2);
               && TxEnabled(c, t3, SendPut)
               && TxPost(c, t3, now + 3) == (i, Carry(Id(s, i), Item(y, now + 3)))
               && TxStep(c, t3, SendPut, now + 3).tx.src == t.tx.src
  {
    hide Bytes, Lane, EofLast, NoEof, SourceInv, Q.Ready;
    assert Order(s, c.n)[t.tx.sender.i] == Id(s, t.tx.sender.i);
  }

  /** The merge, waiting for that lane, writes it out. */
  lemma MergeTakes(c: Config, r: RxEnd, master: Id, i: nat, x: Item)
    requires c.Valid() && r.rx.merger == Read(i, None) && i < |r.rx.order| && !x.chunk.eof
    requires var id := r.rx.order[i]; id in r.links && r.links[id].buffer == [] && r.links[id].status != StaDone
    ensures var id := r.rx.order[i];
      && Acceptable(c, r.links, id)
      && var r1 := r.(links := Accept(r.links, id, x));
         && RxEnabled(r1, MergeRead)
         && var r2 := RxStep(r1, master, MergeRead);
            RxEnabled(r2, MergeWrite) && RxStep(r2, master, MergeWrite).rx.out == r.rx.out + x.chunk.data
  {
  }

  // ---- single steps on the response direction of one stream --------------

  /** What a step of stream s leads to, as far as its own response direction goes. */
  ghost predicate Goes(c: Config, g: System, s: nat, a: Act, e: Ends, down: seq<Wire>) {
    && WellFormed(c, g) && s < |g.ctls| && CanFire(c, g, On(s, a))
    && var g' := Fire(c, g, On(s, a));
       && WellFormed(c, g') && |g'.ctls| == |g.ctls| && g'.clock == g.clock + 1
       && EndsOf(g'.down, s) == e && g'.down.wires == down
  }

  lemma FireEnds(c: Config, g: System, s: nat, a: Act)
    requires WellFormed(c, g) && CanFire(c, g, On(s, a))
    ensures s < |g.ctls|
    ensures Goes(c, g, s, a, Core(c, s, BothOf(g, s), a, g.clock, SystemHead(g, a)).down, WiresAfter(c, g, s, a, Down))
  {
    FireShape(c, g, s, a);
    FireIs(c, g, s, a);
    hide Core, CorePost, CanFire, Fire, WiresAfter;
  }

  lemma TxFires(c: Config, g: System, s: nat, x: TxAct)
    requires WellFormed(c, g) && s < |g.ctls| && TxEnabled(c, EndsOf(g.down, s).t, x) && !x.CloseQueue?
    ensures var e := EndsOf(g.down, s);
      var p := if x.SendPut? then TxPost(c, e.t, g.clock) else (0, Est(Master(s), [], 0));
      Goes(c, g, s, Tx_(Down, x), e.(t := TxStep(c, e.t, x, g.clock)),
           if x.SendPut? then Posted(g.down.wires, p.0, p.1) else g.down.wires)
  {
    hide TxEnabled, TxStep, TxPost;
    FireEnds(c, g, s, Tx_(Down, x));
  }

  lemma AgainFires(c: Config, g: System, s: nat, x: TxAct)
    requires WellFormed(c, g) && s < |g.ctls| && AgainEnabled(c, EndsOf(g.down, s).t, 0, x) && !x.SendPut?
    ensures var e := EndsOf(g.down, s);
      Goes(c, g, s, Again(Down, 0, x), e.(t := AgainStep(c, e.t, 0, x, g.clock)), g.down.wires)
  {
    hide AgainEnabled, AgainStep;
    FireEnds(c, g, s, Again(Down, 0, x));
  }

  lemma RxFires(c: Config, g: System, s: nat, x: RxAct)
    requires WellFormed(c, g) && s < |g.ctls| && RxEnabled(EndsOf(g.down, s).r, x) && !x.CloseLinks?
    ensures var e := EndsOf(g.down, s);
      Goes(c, g, s, Rx_(Down, x), e.(r := RxStep(e.r, Master(s), x)), g.down.wires)
  {
    hide RxEnabled, RxStep;
    FireEnds(c, g, s, Rx_(Down, x));
  }

  lemma ReceiveFires(c: Config, g: System, s: nat, lane: nat, id: Id, x: Item)
    requires WellFormed(c, g) && s < |g.ctls| && Head(g.down.wires, lane) == Some(Carry(id, x)) && id.stream == s
    requires Acceptable(c, g.down.links, id)
    ensures var e := EndsOf(g.down, s);
      Goes(c, g, s, Receive(Down, lane), e.(r := e.r.(links := Accept(g.down.links, id, x))), Dropped(g.down.wires, lane))
  {
    hide Acceptable, Accept;
    FireEnds(c, g, s, Receive(Down, lane));
  }

  predicate NoClose(e: Event) {
    e.On? ==> !(e.a.Tx_? && e.a.tx.CloseQueue?)
  }

  // ---- the breaking continuation -----------------------------------------

  /** The two loops: the second receives a chunk, the first sends the one after it. */
  lemma SharedSend(c: Config, g: System, s: nat, t: TxEnd) returns (evs: seq<Event>, g': System)
    requires WellFormed(c, g) && s < |g.ctls| && EndsOf(g.down, s).t == Raced(t)
    requires c.Valid() && TxInv(c.n, s, t) && t.queue.Some? && t.tx.gone.None? && t.tx.pending > 0
    requires t.tx.sender.Take? && |t.queue.value.buffer| >= 2
    ensures Leads(c, g, evs, g') && (forall e <- evs :: NoClose(e)) && WellFormed(c, g') && |g'.ctls| == |g.ctls|
    ensures EndsOf(g'.down, s).r == EndsOf(g.down, s).r && g'.down.txs[s].src == t.tx.src
    ensures var i := t.tx.sender.i;
      exists at :: g'.down.wires == Posted(g.down.wires, i, Carry(Id(s, i), Item(t.queue.value.buffer[1], at)))
  {
    hide TxInv, AgainEnabled, AgainStep, TxEnabled, TxStep, TxPost, Fire, CanFire, Raced, Posted, Leads;
    LoopsShare(c, s, t, g.clock);
    var e1, e2, e3, e4 := On(s, Again(Down, 0, SendCheck)), On(s, Again(Down, 0, SendTake)),
                          On(s, Tx_(Down, SendTake)), On(s, Tx_(Down, SendPut));
    AgainFires(c, g, s, SendCheck);
    var g1 := Fire(c, g, e1);
    AgainFires(c, g1, s, SendTake);
    var g2 := Fire(c, g1, e2);
    TxFires(c, g2, s, SendTake);
    var g3 := Fire(c, g2, e3);
    TxFires(c, g3, s, SendPut);
    g' := Fire(c, g3, e4);
    LeadsOne(c, g, e1);
    LeadsOne(c, g1, e2);
    LeadsOne(c, g2, e3);
    LeadsOne(c, g3, e4);
    LeadsJoin(c, g, [e1], g1, [e2], g2);
    LeadsJoin(c, g, [e1] + [e2], g2, [e3], g3);
    LeadsJoin(c, g, [e1] + [e2] + [e3], g3, [e4], g');
    evs := [e1] + [e2] + [e3] + [e4];
  }

  /** The merge that waits on lane i writes what arrives there. */
  lemma Delivered(c: Config, g: System, s: nat, i: nat, x: Item) returns (evs: seq<Event>, g': System)
    requires c.Valid() && WellFormed(c, g) && s < |g.ctls| && Head(g.down.wires, i) == Some(Carry(Id(s, i), x))
    requires var rx, links := g.down.rxs[s], g.down.links;
      && rx.merger == Read(i, None) && i < c.n && rx.order == Order(s, c.n) && !x.chunk.eof
      && Id(s, i) in links && links[Id(s, i)].buffer == [] && links[Id(s, i)].status != StaDone
    ensures Leads(c, g, evs, g') && (forall e <- evs :: NoClose(e)) && WellFormed(c, g') && |g'.ctls| == |g.ctls|
    ensures g'.down.rxs[s].out == g.down.rxs[s].out + x.chunk.data && g'.down.txs[s] == g.down.txs[s]
  {
    hide RxEnabled, RxStep, Acceptable, Accept, Fire, CanFire, Dropped, Leads;
    MergeTakes(c, EndsOf(g.down, s).r, Master(s), i, x);
    var e1, e2, e3 := On(s, Receive(Down, i)), On(s, Rx_(Down, MergeRead)), On(s, Rx_(Down, MergeWrite));
    ReceiveFires(c, g, s, i, Id(s, i), x);
    var g1 := Fire(c, g, e1);
    RxFires(c, g1, s, MergeRead);
    var g2 := Fire(c, g1, e2);
    RxFires(c, g2, s, MergeWrite);
    g' := Fire(c, g2, e3);
    LeadsOne(c, g, e1);
    LeadsOne(c, g1, e2);
    LeadsOne(c, g2, e3);
    LeadsJoin(c, g, [e1], g1, [e2], g2);
    LeadsJoin(c, g, [e1] + [e2], g2, [e3], g');
    evs := [e1] + [e2] + [e3];
  }

  /** The sender has two chunks ahead of it that no output can confuse. */
  predicate TwoAhead(t: TxEnd) {
    t.queue.Some? && |t.queue.value.buffer| >= 2
    && var x, y := t.queue.value.buffer[0].data, t.queue.value.buffer[1].data;
       !(y <= x + y)
  }

  /** With chunks ahead, a loop that has begun in a calm run has not ended. */
  lemma StillSending(c: Config, s: nat, t: TxEnd)
    requires c.Valid() && TxInv(c.n, s, t) && CalmTx(t) && t.queue.Some? && t.queue.value.buffer != [] && Begun(t.tx)
    ensures !t.tx.sender.Ended?
    ensures t.tx.sender.Put? ==> !t.tx.sender.chunk.eof && TxEnabled(c, t, SendPut)
    ensures t.tx.sender.Check? ==> TxEnabled(c, t, SendCheck) && t.queue.value.status != StaClose
  {
    hide Bytes, Lane, NoEof, SourceInv, Q.Ready;
    var tx := t.tx;
    assert tx.line[tx.taken..] != [];
  }

  lemma LoopStepKeeps(c: Config, s: nat, t: TxEnd, a: TxAct, now: nat)
    requires c.Valid() && TxInv(c.n, s, t) && TxEnabled(c, t, a) && t.queue.Some? && t.tx.gone.None?
    requires (a.SendCheck? && Begun(t.tx)) || (a.SendPut? && !t.tx.sender.chunk.eof)
    requires a.SendCheck? ==> t.queue.value.status != StaClose
    ensures var t' := TxStep(c, t, a, now);
      && t'.queue == t.queue && t'.tx.gone == t.tx.gone && t'.tx.pending == t.tx.pending && Begun(t'.tx)
      && StepsToTake(t'.tx.sender) < StepsToTake(t.tx.sender)
  {
    hide Bytes, Lane, EofLast, NoEof, SourceInv, Q.Ready, SenderInv;
  }

  lemma DownParts(c: Config, g: System, s: nat)
    requires CalmStream(c, g, s)
    ensures WellFormed(c, g) && c.Valid() && s < |g.ctls|
    ensures TxInv(c.n, s, EndsOf(g.down, s).t) && CalmTx(EndsOf(g.down, s).t)
  {
    hide Always, Ordered, TxInv, RxInv, CalmTx;
    EndFacts(c, s, View(c, g, s), Down);
  }

  /** Steps to the next receive. */
  function StepsToTake(loop: Sender): nat {
    match loop
    case Put(_, _) => 2
    case Check => 1
    case _ => 0
  }

  /** The first loop goes on to its next receive, in both systems. */
  lemma {:induction false} ReachTake(c: Config, g: System, s: nat) returns (evs: seq<Event>, g': System)
    requires CalmStream(c, g, s) && Ready2(g.down, s) && Begun(g.down.txs[s])
    requires EndsOf(g.down, s).t.queue.value.buffer != []
    ensures CalmStream(c, g', s) && |g'.ctls| == |g.ctls| && Ready2(g'.down, s) && g'.down.txs[s].sender.Take?
    ensures EndsOf(g'.down, s).t.queue == EndsOf(g.down, s).t.queue
    ensures Leads(c, Swap(g, s), evs, Swap(g', s)) && forall e <- evs :: NoClose(e)
    decreases StepsToTake(g.down.txs[s].sender)
  {
    hide CalmStream, CanFire, Fire, Swap, Ready2, Leads, NoClose, Begun;
    StreamOf(c, g, s);
    if g.down.txs[s].sender.Take? {
      evs, g' := [], g;
      LeadsNone(c, Swap(g, s));
    } else {
      var e, g1 := LoopStep(c, g, s);
      StreamOf(c, g1, s);
      var rest, last := ReachTake(c, g1, s);
      evs, g' := [e] + rest, last;
      StreamOf(c, last, s);
      LeadsJoin(c, Swap(g, s), [e], Swap(g1, s), rest, Swap(g', s));
    }
  }

  /** One such step. */
  lemma LoopStep(c: Config, g: System, s: nat) returns (e: Event, g': System)
    requires CalmStream(c, g, s) && Ready2(g.down, s) && Begun(g.down.txs[s])
    requires EndsOf(g.down, s).t.queue.value.buffer != [] && !g.down.txs[s].sender.Take?
    ensures CalmStream(c, g', s) && |g'.ctls| == |g.ctls| && Ready2(g'.down, s) && Begun(g'.down.txs[s])
    ensures EndsOf(g'.down, s).t.queue == EndsOf(g.down, s).t.queue
    ensures StepsToTake(g'.down.txs[s].sender) < StepsToTake(g.down.txs[s].sender)
    ensures Leads(c, Swap(g, s), [e], Swap(g', s)) && NoClose(e)
  {
    hide CalmStream, SystemAlways, CanFire, Fire, TxStep, TxEnabled, CalmTx, TxInv, Swap, Leads, Q.Ready;
    StreamOf(c, g, s);
    DownParts(c, g, s);
    var t := EndsOf(g.down, s).t;
    StillSending(c, s, t);
    var a := if t.tx.sender.Check? then SendCheck else SendPut;
    LoopStepKeeps(c, s, t, a, g.clock);
    TxFires(c, g, s, a);
    e := On(s, Tx_(Down, a));
    g' := Fire(c, g, e);
    CalmStreamKept(c, g, e, s);
    Commutes(c, g, s, e);
    LeadsOne(c, Swap(g, s), e);
  }

  /** What the merge wrote last is not what was read next. */
  lemma Broken(c: Config, s: nat, t: TxEnd)
    requires c.Valid() && TxInv(c.n, s, t) && t.tx.gone.None? && t.tx.sender.Take? && TwoAhead(t)
    ensures !(Sent(t.tx.dealt, |t.tx.dealt|) + t.queue.value.buffer[1].data <= t.tx.src)
    ensures !t.queue.value.buffer[1].eof
  {
    hide Lane, Q.Ready, NoEof;
    var tx, w := t.tx, |t.tx.dealt|;
    var x, y := t.queue.value.buffer[0], t.queue.value.buffer[1];
    assert tx.line[w..] == t.queue.value.buffer;
    assert tx.line[w] == x && tx.line[w + 1] == y;
    SentIsBytes(tx.dealt, tx.line, w);
    NextTwo(tx.line, w);
    BytesPrefix(tx.line, w + 2);
    hide Bytes, Sent;
    Confused(Bytes(tx.line[..w]), x.data, y.data, tx.src);
  }

  lemma Confused(a: seq<byte>, x: seq<byte>, y: seq<byte>, src: seq<byte>)
    requires a + x + y <= src && !(y <= x + y)
    ensures !(a + y <= src)
  {
    var k :| 0 <= k < |y| && y[k] != (x + y)[k];
    assert src[|a| + k] == (a + x + y)[|a| + k] == (x + y)[k];
    assert (a + y)[|a| + k] == y[k];
  }

  lemma NextTwo(line: seq<Chunk>, w: nat)
    requires w + 1 < |line|
    ensures Bytes(line[..w]) + line[w].data + line[w + 1].data == Bytes(line[..w + 2])
  {
    OneMore(line, w);
    OneMore(line, w + 1);
  }

  lemma OneMore(line: seq<Chunk>, w: nat)
    requires w < |line|
    ensures Bytes(line[..w + 1]) == Bytes(line[..w]) + line[w].data
  {
    assert line[..w + 1] == line[..w] + [line[w]];
    BytesAppend(line[..w], line[w]);
  }

  /** The clock does not matter to a stream. */
  lemma ClockOn(c: Config, g: System, k: nat, s: nat)
    requires CalmStream(c, g, s)
    ensures CalmStream(c, g.(clock := k), s)
  {
    var g' := g.(clock := k);
    hide Always, Ordered, CalmInv;
    forall o | 0 <= o < |g.ctls| ensures View(c, g', o) == View(c, g, o) {
    }
    forall o | o >= |g.ctls| ensures Blank(g'.up, o) && Blank(g'.down, o) {
      assert Blank(g.up, o) && Blank(g.down, o);
    }
  }

  const CLOSE := Tx_(Down, CloseQueue)

  /** The close and the late Send lead to the raced system. */
  lemma RaceSystem(c: Config, g: System, s: nat)
    requires CalmStream(c, g, s) && CanFire(c, g, On(s, CLOSE)) && Racing(g.down.txs[s])
    ensures Ready2(g.down, s)
    ensures var g1, begin := Fire(c, g, On(s, CLOSE)), On(s, Tx_(Down, SendBegin));
      && WellFormed(c, g1) && |g1.ctls| == |g.ctls| && CanFire(c, g1, begin)
      && Fire(c, g1, begin) == Swap(g.(clock := g.clock + 2), s)
  {
    hide CalmStream, TxInv, CalmTx, Fire, TxStep, TxEnabled, Raced;
    DownParts(c, g, s);
    var t := EndsOf(g.down, s).t;
    RaceStart(c, g, s);
    SecondLoopStarts(c, s, t, g.clock);
    FireIs(c, g, s, CLOSE);
    FireShape(c, g, s, CLOSE);
    var g1 := Fire(c, g, On(s, CLOSE));
    var t1 := TxStep(c, t, CloseQueue, g.clock);
    var b := BothOf(g, s);
    PutBack(c, g, s, t1);
    FireIs(c, g1, s, Tx_(Down, SendBegin));
    PutTwice(c, g, s, t1, Raced(t));
  }

  lemma RaceStart(c: Config, g: System, s: nat)
    requires WellFormed(c, g) && s < |g.ctls| && CanFire(c, g, On(s, CLOSE)) && Racing(g.down.txs[s])
    ensures Ready2(g.down, s) && TxEnabled(c, EndsOf(g.down, s).t, CloseQueue)
  {
  }

  function WithTx(b: Both, t: TxEnd): Both {
    b.(down := b.down.(t := t))
  }

  lemma PutBack(c: Config, g: System, s: nat, t: TxEnd)
    requires WellFormed(c, g) && s < |g.ctls|
    ensures BothOf(Put(g, s, WithTx(BothOf(g, s), t), g.up.wires, g.down.wires), s) == WithTx(BothOf(g, s), t)
  {
  }

  lemma PutTwice(c: Config, g: System, s: nat, t1: TxEnd, t2: TxEnd)
    requires WellFormed(c, g) && s < |g.ctls| && t2 == Raced(EndsOf(g.down, s).t) && Ready2(g.down, s)
    ensures var g1 := Put(g, s, WithTx(BothOf(g, s), t1), g.up.wires, g.down.wires);
      Put(g1, s, WithTx(BothOf(g, s), t2), g.up.wires, g.down.wires) == Swap(g.(clock := g.clock + 2), s)
  {
    var g1 := Put(g, s, WithTx(BothOf(g, s), t1), g.up.wires, g.down.wires);
    var g2 := Put(g1, s, WithTx(BothOf(g, s), t2), g.up.wires, g.down.wires);
    var r := Swap(g.(clock := g.clock + 2), s);
    assert g2.up.queues == g.up.queues && g2.up.txs == g.up.txs && g2.up.rxs == g.up.rxs;
    assert g2.down.queues == r.down.queues && g2.down.txs == r.down.txs && g2.down.rxs == g.down.rxs;
    assert g2.ctls == g.ctls;
  }

  /** From every state in which the close of a calm stream would race and two chunks are
      ahead, the close has a continuation that breaks order. */
  lemma RaceBreaks(c: Config, g: System, s: nat) returns (more: seq<Event>, g': System)
    requires CalmStream(c, g, s) && CanFire(c, g, On(s, CLOSE)) && Racing(g.down.txs[s])
    requires TwoAhead(EndsOf(g.down, s).t)
    ensures Leads(c, Fire(c, g, On(s, CLOSE)), more, g') && (forall e <- more :: NoClose(e))
    ensures WellFormed(c, g') && s < |g'.ctls| && !(g'.down.rxs[s].out <= g'.down.txs[s].src)
  {
    hide CalmStream, Fire, CanFire, Swap, Leads, TxInv, TwoAhead, Parked, Raced, NoClose, Sent, Posted;
    RaceSystem(c, g, s);
    ClockOn(c, g, g.clock + 2, s);
    StreamOf(c, g, s);
    var g0, g1, begin := g.(clock := g.clock + 2), Fire(c, g, On(s, CLOSE)), On(s, Tx_(Down, SendBegin));
    LeadsOne(c, g1, begin);
    assert NoClose(begin) by { NotAClose(begin); }
    var a, ga := TogetherBefore(c, g0, s);
    StreamOf(c, ga, s);
    var b, gb := LoopsBreak(c, ga, s);
    LeadsJoin(c, g1, [begin], Swap(g0, s), a, Swap(ga, s));
    LeadsJoin(c, g1, [begin] + a, Swap(ga, s), b, gb);
    more, g' := [begin] + a + b, gb;
  }

  lemma NotAClose(e: Event)
    requires e.On? && e.a == Tx_(Down, SendBegin)
    ensures NoClose(e)
  {
  }

  /** Both systems go on until the merge of s waits and its first loop is to receive. */
  lemma TogetherBefore(c: Config, g: System, s: nat) returns (evs: seq<Event>, g': System)
    requires CalmStream(c, g, s) && Ready2(g.down, s) && Begun(g.down.txs[s])
    requires TwoAhead(EndsOf(g.down, s).t)
    ensures CalmStream(c, g', s) && |g'.ctls| == |g.ctls| && Ready2(g'.down, s) && g'.down.txs[s].sender.Take?
    ensures TwoAhead(EndsOf(g'.down, s).t) && Parked(c, g', s)
    ensures Leads(c, Swap(g, s), evs, Swap(g', s)) && forall e <- evs :: NoClose(e)
  {
    hide CalmStream, Swap, Leads, Parked, Raced, NoClose;
    StreamOf(c, g, s);
    var a, ga := ReachTake(c, g, s);
    StreamOf(c, ga, s);
    var b, gb := DrainTogether(c, ga, s);
    StreamOf(c, gb, s);
    LeadsJoin(c, Swap(g, s), a, Swap(ga, s), b, Swap(gb, s));
    evs, g' := a + b, gb;
  }

  lemma NoWires(c: Config, g: System, s: nat)
    requires CalmStream(c, g, s) && Parked(c, g, s)
    ensures forall l :: 0 <= l < |g.down.wires| ==> g.down.wires[l] == []
  {
    hide CalmStream, Parked;
    forall l | 0 <= l < |g.down.wires| ensures g.down.wires[l] == [] { ParkedIsEmpty(c, g, s, l); }
  }

  /** Then the loops share the next two chunks, and the wrong one is written. */
  lemma LoopsBreak(c: Config, g: System, s: nat) returns (evs: seq<Event>, g': System)
    requires CalmStream(c, g, s) && Ready2(g.down, s) && g.down.txs[s].sender.Take?
    requires TwoAhead(EndsOf(g.down, s).t)
    requires Parked(c, g, s)
    ensures Leads(c, Swap(g, s), evs, g') && forall e <- evs :: NoClose(e)
    ensures WellFormed(c, g') && s < |g'.ctls| && !(g'.down.rxs[s].out <= g'.down.txs[s].src)
  {
    hide CalmStream, Fire, CanFire, Leads, TxInv, CalmTx, Parked, Raced, NoClose, Sent;
    DownParts(c, g, s);
    NoWires(c, g, s);
    DrainedState(c, g, s);
    SwapBoth(c, g, s, s);
    var t := EndsOf(g.down, s).t;
    var i, y := t.tx.sender.i, t.queue.value.buffer[1];
    Broken(c, s, t);
    var a, ga := SharedSend(c, Swap(g, s), s, t);
    var at :| ga.down.wires == Posted(Swap(g, s).down.wires, i, Carry(Id(s, i), Item(y, at)));
    var b, gb := Delivered(c, ga, s, i, Item(y, at));
    LeadsJoin(c, Swap(g, s), a, ga, b, gb);
    evs, g' := a + b, gb;
  }
}
