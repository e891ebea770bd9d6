/** Bounded buffers: no channel ever holds more than its capacity, and it is exactly a full
    one that makes a reader, or a copy loop, wait. */
module Capacity {
  import opened Data
  import opened Counting
  import opened Protocol
  import opened Stream
  import opened StreamInvariant
  import opened Mux
  import opened MuxInvariant
  import opened OneEnd
  import opened Guarantees
  import Q = QueueHubModel
  import L = LinkHubModel

  predicate LinksFit(cap: nat, links: Hub) {
    forall id :: id in links ==> |links[id].buffer| <= cap
  }

  predicate QueueFits(cap: nat, q: Option<Q.Queue>) {
    q.Some? ==> |q.value.buffer| <= cap
  }

  /** The hub's entry, the object that left the hub, and what a receive goes on reading. */
  predicate TxFits(cap: nat, t: TxEnd) {
    QueueFits(cap, t.queue) && QueueFits(cap, t.tx.gone)
  }

  predicate RxFits(cap: nat, r: RxEnd) {
    LinksFit(cap, r.links) && (r.rx.merger.Read? && r.rx.merger.orphan.Some? ==> |r.rx.merger.orphan.value| <= cap)
  }

  predicate BothFit(cap: nat, b: Both) {
    TxFits(cap, b.up.t) && TxFits(cap, b.down.t) && RxFits(cap, b.up.r) && RxFits(cap, b.down.r)
  }

  // ---- every step --------------------------------------------------------

  lemma TxFitsStep(c: Config, t: TxEnd, a: TxAct, now: nat)
    requires TxEnabled(c, t, a) && TxFits(c.cap, t)
    ensures TxFits(c.cap, TxStep(c, t, a, now))
  {
  }

  lemma AgainFits(c: Config, t: TxEnd, k: nat, a: TxAct, now: nat)
    requires AgainEnabled(c, t, k, a) && TxFits(c.cap, t)
    ensures TxFits(c.cap, AgainStep(c, t, k, a, now))
  {
    hide TxEnabled, TxStep;
    TxFitsStep(c, Focus(t, k), a, now);
  }

  lemma RxFitsStep(cap: nat, r: RxEnd, master: Id, a: RxAct)
    requires RxEnabled(r, a) && RxFits(cap, r)
    ensures RxFits(cap, RxStep(r, master, a))
  {
  }

  lemma HubFits(cap: nat, links: Hub, id: Id, master: Id, sorted: seq<Id>)
    requires LinksFit(cap, links)
    ensures LinksFit(cap, L.AddLink(links, id, master)) && LinksFit(cap, L.SortLink(links, master, sorted))
    ensures LinksFit(cap, L.ConnectLink(links, master))
  {
  }

  lemma AcceptFits(c: Config, links: Hub, id: Id, x: Item)
    requires LinksFit(c.cap, links) && Acceptable(c, links, id)
    ensures LinksFit(c.cap, Accept(links, id, x))
  {
  }

  lemma ReceiveFits(c: Config, s: nat, b: Both, d: Dir, lane: nat, now: nat, head: Option<Msg>)
    requires CoreEnabled(c, s, b, Receive(d, lane), head) && BothFit(c.cap, b)
    ensures BothFit(c.cap, Core(c, s, b, Receive(d, lane), now, head))
  {
    hide Q.Ready, L.Ready, L.AddLink, L.SortLink, Accept, Acceptable, LinksFit;
    match head.value
    case Hi(id, master, _) => HubFits(c.cap, b.up.r.links, id, master, []);
    case Est(id, sorted, _) => HubFits(c.cap, b.up.r.links, id, id, sorted);
    case Carry(id, x) => AcceptFits(c, b.At(d).r.links, id, x);
  }

  lemma SetupFits(c: Config, s: nat, b: Both, a: Act, now: nat, head: Option<Msg>)
    requires CoreEnabled(c, s, b, a, head) && BothFit(c.cap, b) && IsSetup(a)
    ensures BothFit(c.cap, Core(c, s, b, a, now, head))
  {
    hide Q.Ready, L.Ready, L.AddLink, L.SortLink, L.ConnectLink, LinksFit, TxEnabled, RxEnabled, TxStep, RxStep;
    var m := Master(s);
    HubFits(c.cap, b.down.r.links, Id(s, b.ctl.added), m, []);
    HubFits(c.cap, b.up.r.links, m, m, []);
    HubFits(c.cap, L.ConnectLink(b.down.r.links, m), m, m, Order(s, c.n));
  }

  lemma CoreFits(c: Config, s: nat, b: Both, a: Act, now: nat, head: Option<Msg>)
    requires CoreEnabled(c, s, b, a, head) && BothFit(c.cap, b)
    ensures BothFit(c.cap, Core(c, s, b, a, now, head))
  {
    hide TxEnabled, TxStep, AgainEnabled, AgainStep, RxEnabled, RxStep, TxFits, RxFits;
    match a
    case Tx_(d, x) => TxFitsStep(c, b.At(d).t, x, now);
    case Again(d, k, x) => AgainFits(c, b.At(d).t, k, x, now);
    case Rx_(d, x) => RxFitsStep(c.cap, b.At(d).r, Master(s), x);
    case Receive(d, lane) => ReceiveFits(c, s, b, d, lane, now, head);
    case Discard(_, _) =>
    case _ => SetupFits(c, s, b, a, now, head);
  }

  // ---- every run ---------------------------------------------------------

  ghost predicate PlaneFits(cap: nat, p: Plane) {
    && LinksFit(cap, p.links)
    && (forall id :: id in p.queues ==> |p.queues[id].buffer| <= cap)
    && (forall s :: 0 <= s < |p.txs| ==> QueueFits(cap, p.txs[s].gone))
    && (forall s :: 0 <= s < |p.rxs| ==> RxFits(cap, RxEnd(p.links, p.rxs[s])))
  }

  ghost predicate AllFit(c: Config, g: System) {
    WellFormed(c, g) && PlaneFits(c.cap, g.up) && PlaneFits(c.cap, g.down)
  }

  lemma PutFits(cap: nat, p: Plane, s: nat, e: Ends, wires: seq<Wire>)
    requires s < |p.txs| == |p.rxs| && PlaneFits(cap, p) && TxFits(cap, e.t) && RxFits(cap, e.r)
    ensures PlaneFits(cap, PutEnds(p, s, e).(wires := wires))
  {
    var p' := PutEnds(p, s, e).(wires := wires);
    forall o | 0 <= o < |p'.rxs| ensures RxFits(cap, RxEnd(p'.links, p'.rxs[o])) {
      assert RxFits(cap, RxEnd(p.links, p.rxs[o]));
    }
    forall o | 0 <= o < |p'.txs| ensures QueueFits(cap, p'.txs[o].gone) {
      assert QueueFits(cap, p.txs[o].gone);
    }
  }

  lemma EndFits(cap: nat, p: Plane, s: nat)
    requires s < |p.txs| == |p.rxs| && PlaneFits(cap, p)
    ensures TxFits(cap, EndsOf(p, s).t) && RxFits(cap, EndsOf(p, s).r)
  {
    assert RxFits(cap, RxEnd(p.links, p.rxs[s])) && QueueFits(cap, p.txs[s].gone);
  }

  lemma EventFits(c: Config, g: System, e: Event)
    requires AllFit(c, g) && CanFire(c, g, e)
    ensures AllFit(c, Fire(c, g, e))
  {
    if e.On? {
      FireShape(c, g, e.s, e.a);
      FireParts(c, g, e.s, e.a);
      hide Core, CoreEnabled, CorePost, PlaneFits, TxFits, RxFits, Fire, WiresAfter;
      EndFits(c.cap, g.up, e.s);
      EndFits(c.cap, g.down, e.s);
      CoreFits(c, e.s, BothOf(g, e.s), e.a, g.clock, SystemHead(g, e.a));
      var b := Core(c, e.s, BothOf(g, e.s), e.a, g.clock, SystemHead(g, e.a));
      PutFits(c.cap, g.up, e.s, b.up, WiresAfter(c, g, e.s, e.a, Up));
      PutFits(c.cap, g.down, e.s, b.down, WiresAfter(c, g, e.s, e.a, Down));
    } else {
      OpenFits(c.cap, g.up);
      OpenFits(c.cap, g.down);
    }
  }

  lemma OpenFits(cap: nat, p: Plane)
    requires PlaneFits(cap, p)
    ensures PlaneFits(cap, p.(txs := p.txs + [NEW_TX], rxs := p.rxs + [NEW_RX]))
  {
    var p' := p.(txs := p.txs + [NEW_TX], rxs := p.rxs + [NEW_RX]);
    forall o | 0 <= o < |p'.rxs| ensures RxFits(cap, RxEnd(p'.links, p'.rxs[o])) {
      assert o < |p.rxs| ==> RxFits(cap, RxEnd(p.links, p.rxs[o]));
    }
  }

  lemma {:induction false} LeadsFit(c: Config, g: System, evs: seq<Event>, g': System)
    requires AllFit(c, g) && Leads(c, g, evs, g')
    ensures AllFit(c, g')
    decreases |evs|
  {
    hide AllFit, Fire, CanFire;
    if evs != [] {
      EventFits(c, g, evs[0]);
      LeadsFit(c, Fire(c, g, evs[0]), evs[1..], g');
    }
  }

  /** In every reachable state every link buffer, the buffer of every queue in the hub and
      of every queue that has left it hold at most `cap` chunks. */
  lemma BuffersBounded(c: Config, evs: seq<Event>, g: System)
    requires c.Valid() && Reaches(c, evs, g)
    ensures AllFit(c, g)
  {
    hide Fire, CanFire;
    LeadsFit(c, Start(c), evs, g);
  }

  // ---- who waits ---------------------------------------------------------

  /** The link of an id is there, takes data, and is full. */
  predicate Full(c: Config, links: Hub, id: Id) {
    id in links && links[id].status != StaDone && |links[id].buffer| == c.cap
  }

  /** Head-of-line blocking is exactly this: in every reachable state the reader of a
      websocket cannot dispatch the data message at its head if and only if the link of
      that message is full and its merge has not ended. */
  lemma ReaderWaitsIff(c: Config, evs: seq<Event>, g: System, d: Dir, l: nat)
    requires c.Valid() && Reaches(c, evs, g) && Head(g.At(d).wires, l).Some? && g.At(d).wires[l][0].Carry?
    ensures WellFormed(c, g)
    ensures var id := g.At(d).wires[l][0].id;
      && id.stream < |g.ctls|
      && (CanFire(c, g, On(id.stream, Receive(d, l))) <==> !Full(c, g.At(d).links, id))
  {
    hide Leads, Always;
    ReachableAlways(c, evs, g);
    BuffersBounded(c, evs, g);
    HeadStreamExists(c, g, d, l);
  }

  /** In every reachable state a copy loop with a chunk in its hand cannot push it if and
      only if its queue is full, closed, or its Send has ended. */
  lemma PusherWaitsIff(c: Config, evs: seq<Event>, g: System, s: nat, d: Dir)
    requires c.Valid() && Reaches(c, evs, g) && s < |g.ctls| && s < |g.At(d).txs| && g.At(d).txs[s].source.Pushing?
    ensures WellFormed(c, g)
    ensures var t := EndsOf(g.At(d), s).t;
      && Object(t).Some?
      && var q := Object(t).value;
         CanFire(c, g, On(s, Tx_(d, SrcPush))) <==> !(|q.buffer| == c.cap || !q.open || q.status == StaDone)
  {
    hide Leads, Always, TxShape, RxShape;
    ReachableAlways(c, evs, g);
    BuffersBounded(c, evs, g);
    ShapeFacts(c, s, View(c, g, s), d);
    PushingHasQueue(c.n, s, View(c, g, s).b.At(d).t);
    hide PlaneFits;
    EndFits(c.cap, g.At(d), s);
  }

  lemma PushingHasQueue(n: nat, s: nat, t: TxEnd)
    requires TxShape(n, s, t) && t.tx.source.Pushing?
    ensures Object(t).Some?
  {
  }

  /** Once queue.Send has ended nothing enters the channel any more: the copy loop's next
      write is turned away. */
  lemma EndedTakesNothing(c: Config, evs: seq<Event>, g: System, s: nat, d: Dir)
    requires c.Valid() && SoundReaches(c, evs, g, s, d) && s < |g.ctls|
    ensures WellFormed(c, g)
    ensures g.At(d).txs[s].sender.Ended? ==> !CanFire(c, g, On(s, Tx_(d, SrcPush)))
  {
    hide Sound, SystemAlways, SoundReaches, RxInv, TxInv, TxEnabled, CanFire;
    ReachableSound(c, evs, g, s, d);
    HoldsFor(c, g, s);
    EndFacts(c, s, View(c, g, s), d);
    if g.At(d).txs[s].sender.Ended? && CanFire(c, g, On(s, Tx_(d, SrcPush))) {
      PushEnabled(c, g, s, d);
      EndedIsDone(c, s, View(c, g, s).b.At(d).t);
    }
  }

  lemma PushEnabled(c: Config, g: System, s: nat, d: Dir)
    requires WellFormed(c, g) && s < |g.ctls| && CanFire(c, g, On(s, Tx_(d, SrcPush)))
    ensures TxEnabled(c, View(c, g, s).b.At(d).t, SrcPush)
  {
    hide TxEnabled;
  }

  lemma EndedIsDone(c: Config, s: nat, t: TxEnd)
    requires c.Valid() && TxInv(c.n, s, t) && t.tx.sender.Ended?
    ensures !TxEnabled(c, t, SrcPush)
  {
    hide Bytes, EofLast, NoEof, SourceInv, SenderInv, Equipped, Q.Ready;
  }

  /** A receive or a write of queue.Send may fail at any time. The loop then ends, what it
      has not sent stays in the channel, and nothing more enters it. */
  lemma FailedSend(c: Config, evs: seq<Event>, g: System, s: nat, d: Dir)
    requires c.Valid() && SoundReaches(c, evs, g, s, d) && WellFormed(c, g) && s < |g.ctls|
    requires g.At(d).txs[s].sender.Take? || g.At(d).txs[s].sender.Put?
    ensures var e := On(s, Tx_(d, SendFail));
      && CanFire(c, g, e)
      && var g' := Fire(c, g, e);
         && WellFormed(c, g') && |g'.ctls| == |g.ctls| && g'.At(d).txs[s].sender.Ended?
         && g'.At(d).txs[s].dealt == g.At(d).txs[s].dealt
         && Buffered(EndsOf(g'.At(d), s).t) == Buffered(EndsOf(g.At(d), s).t)
         && !CanFire(c, g', On(s, Tx_(d, SrcPush)))
  {
    var e := On(s, Tx_(d, SendFail));
    hide Always, Leads, StreamTimely, TxShape, RxShape;
    ReachableAlways(c, evs, g);
    ShapeFacts(c, s, View(c, g, s), d);
    RunningHasQueue(c.n, s, View(c, g, s).b.At(d).t);
    SendFails(c, g, s, d);
    hide Fire, CanFire, TimelyEvent, SystemAlways;
    LeadsOne(c, g, e);
    LeadsJoin(c, Start(c), evs, g, [e], Fire(c, g, e));
    if d.Down? { TimelyLast(c, Start(c), evs, g, e, s); }
    EndedTakesNothing(c, evs + [e], Fire(c, g, e), s, d);
  }

  lemma RunningHasQueue(n: nat, s: nat, t: TxEnd)
    requires TxShape(n, s, t) && Begun(t.tx)
    ensures Object(t).Some?
  {
  }

  lemma SendFails(c: Config, g: System, s: nat, d: Dir)
    requires WellFormed(c, g) && s < |g.ctls| && Object(EndsOf(g.At(d), s).t).Some?
    requires g.At(d).txs[s].sender.Take? || g.At(d).txs[s].sender.Put?
    ensures var e := On(s, Tx_(d, SendFail));
      && CanFire(c, g, e) && TimelyEvent(c, g, e, s)
      && var g' := Fire(c, g, e);
         && WellFormed(c, g') && |g'.ctls| == |g.ctls| && g'.At(d).txs[s].sender.Ended?
         && g'.At(d).txs[s].dealt == g.At(d).txs[s].dealt
         && Buffered(EndsOf(g'.At(d), s).t) == Buffered(EndsOf(g.At(d), s).t)
  {
  }

  /** A push may fail at any time. The copy loop then stops, and the chunk in its hand does
      not enter the channel. */
  lemma FailedPush(c: Config, g: System, s: nat, d: Dir)
    requires WellFormed(c, g) && s < |g.ctls| && g.At(d).txs[s].source.Pushing?
    ensures var e := On(s, Tx_(d, SrcFail));
      && CanFire(c, g, e)
      && var g' := Fire(c, g, e);
         && WellFormed(c, g') && |g'.ctls| == |g.ctls| && g'.At(d).txs[s].source.Stopped?
         && g'.At(d).txs[s].line == g.At(d).txs[s].line
         && Buffered(EndsOf(g'.At(d), s).t) == Buffered(EndsOf(g.At(d), s).t)
  {
  }

  // ---- after link.Send ---------------------------------------------------

  /** The master link of a merge that is over, if still in the hub, says so. */
  predicate SaysDone(s: nat, r: RxEnd) {
    && (!r.rx.merger.Dormant? && !r.rx.removed ==> Master(s) in r.links)
    && (r.rx.merger.Over? && !r.rx.removed ==> Master(s) in r.links && r.links[Master(s)].status == StaDone)
  }

  lemma RxSaysDone(s: nat, r: RxEnd, a: RxAct)
    requires RxEnabled(r, a) && SaysDone(s, r)
    ensures SaysDone(s, RxStep(r, Master(s), a))
  {
  }

  /** A change of the hub by set-up or by a reader: no status changes, no link leaves. */
  ghost predicate OnlyGrows(links: Hub, links': Hub) {
    forall id :: id in links ==> id in links' && links'[id].status == links[id].status
  }

  lemma HubGrows(links: Hub, id: Id, master: Id, sorted: seq<Id>, x: Item)
    ensures OnlyGrows(links, L.AddLink(links, id, master)) && OnlyGrows(links, L.SortLink(links, master, sorted))
    ensures OnlyGrows(links, L.ConnectLink(links, master)) && OnlyGrows(links, Accept(links, id, x))
  {
  }

  lemma CoreGrows(c: Config, s: nat, b: Both, a: Act, now: nat, head: Option<Msg>, d: Dir)
    requires CoreEnabled(c, s, b, a, head) && !a.Rx_?
    ensures OnlyGrows(b.At(d).r.links, Core(c, s, b, a, now, head).At(d).r.links)
  {
    hide Q.Ready, L.Ready, TxEnabled, TxStep, AgainEnabled, AgainStep, RxEnabled, RxStep, L.AddLink, L.SortLink, L.ConnectLink, Accept;
    var links, m := b.At(d).r.links, Master(s);
    var x := Item(ZERO, 0);
    match a
    case Register => HubGrows(links, Id(s, b.ctl.added), m, [], x);
    case StartLink =>
      HubGrows(links, m, m, [], x);
      HubGrows(L.ConnectLink(links, m), m, m, Order(s, c.n), x);
    case Connect(_) => HubGrows(links, m, m, [], x);
    case Receive(_, _) =>
      match head.value {
        case Hi(id, master, _) => HubGrows(links, id, master, [], x);
        case Est(id, sorted, _) => HubGrows(links, id, id, sorted, x);
        case Carry(id, y) => HubGrows(links, id, id, [], y);
      }
    case _ =>
  }

  lemma StepSaysDone(c: Config, s: nat, v: Stream, a: Act, now: nat, d: Dir)
    requires Always(c, s, v) && Enabled(c, s, v, a) && SaysDone(s, v.b.At(d).r)
    requires Always(c, s, Step(c, s, v, a, now))
    ensures SaysDone(s, Step(c, s, v, a, now).b.At(d).r)
  {
    hide Always, Step, Core, CoreEnabled, TxStep, TxEnabled, AgainStep, AgainEnabled, RxStep, RxEnabled;
    StepEnds(c, s, v, a, now, d);
    StepIsCore(c, s, v, a, now);
    LaunchedIsThere(c, s, Step(c, s, v, a, now), d);
    if a.Rx_? && a.dir == d {
      WasEnabled(c, s, v, a);
      RxSaysDone(s, v.b.At(d).r, a.rx);
    } else if a.Rx_? {
      OtherRx(c, s, v.b, a, now, HeadFor(v, a), d);
    } else {
      CoreGrows(c, s, v.b, a, now, HeadFor(v, a), d);
    }
  }

  lemma OtherRx(c: Config, s: nat, b: Both, a: Act, now: nat, head: Option<Msg>, d: Dir)
    requires CoreEnabled(c, s, b, a, head) && a.Rx_? && a.dir != d
    ensures Core(c, s, b, a, now, head).At(d) == b.At(d)
  {
  }

  lemma LaunchedIsThere(c: Config, s: nat, v: Stream, d: Dir)
    requires Always(c, s, v)
    ensures var r := v.b.At(d).r; !r.rx.merger.Dormant? && !r.rx.removed ==> Master(s) in r.links
  {
    hide UpWireInv, DownWireInv, UpQueueInv, DownQueueInv, TxInv, TxShape, Lanes, MergerInv, ShutInv, RemovedInv;
    BelowSize(c.n);
  }

  lemma {:induction false} LeadsSayDone(c: Config, g: System, evs: seq<Event>, g': System, s: nat, d: Dir)
    requires SystemAlways(c, g) && Leads(c, g, evs, g') && (s < |g.ctls| ==> SaysDone(s, View(c, g, s).b.At(d).r))
    ensures SystemAlways(c, g') && (s < |g'.ctls| ==> SaysDone(s, View(c, g', s).b.At(d).r))
    decreases |evs|
  {
    hide SystemAlways, Fire, CanFire, SaysDone;
    if evs != [] {
      EventSaysDone(c, g, evs[0], s, d);
      LeadsSayDone(c, Fire(c, g, evs[0]), evs[1..], g', s, d);
    }
  }

  lemma EventSaysDone(c: Config, g: System, e: Event, s: nat, d: Dir)
    requires SystemAlways(c, g) && CanFire(c, g, e) && (s < |g.ctls| ==> SaysDone(s, View(c, g, s).b.At(d).r))
    ensures var g' := Fire(c, g, e); SystemAlways(c, g') && (s < |g'.ctls| ==> SaysDone(s, View(c, g', s).b.At(d).r))
  {
    hide Always, CanFire, Step, Enabled, View, SaysDone;
    EventKeeps(c, g, e);
    if s < |g.ctls| {
      EventView(c, g, e, s);
      if e.On? && e.s == s {
        hide Fire;
        HoldsFor(c, Fire(c, g, e), s);
        StepSaysDone(c, s, View(c, g, s), e.a, g.clock, d);
      }
    } else if e.On? {
      FireShape(c, g, e.s, e.a);
    } else {
      OpenView(c, g);
      NewSaysDone(c.n, s, d);
    }
  }

  lemma NewSaysDone(n: nat, s: nat, d: Dir)
    ensures SaysDone(s, NewStream(n).b.At(d).r)
  {
  }

  /** Once link.Send is over, in every run, what still arrives on the master's lane never
      holds up the websocket: it is dropped, or its link is gone. */
  lemma OverNeverBlocks(c: Config, evs: seq<Event>, g: System, d: Dir, l: nat)
    requires c.Valid() && Reaches(c, evs, g) && Head(g.At(d).wires, l).Some? && g.At(d).wires[l][0].Carry?
    ensures WellFormed(c, g) && g.At(d).wires[l][0].id.stream < |g.ctls|
    ensures var id := g.At(d).wires[l][0].id;
      id == Master(id.stream) && g.At(d).rxs[id.stream].merger.Over? && !g.At(d).rxs[id.stream].removed ==>
        CanFire(c, g, On(id.stream, Receive(d, l))) && Accept(g.At(d).links, id, g.At(d).wires[l][0].item) == g.At(d).links
  {
    hide Leads, SystemAlways;
    ReachableAlways(c, evs, g);
    StartAlways(c);
    ReaderWaitsIff(c, evs, g, d, l);
    var s := g.At(d).wires[l][0].id.stream;
    LeadsSayDone(c, Start(c), evs, g, s, d);
    OwnAgrees(g.At(d).links, s);
  }
}
