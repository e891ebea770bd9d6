/** The projection theorem: in every reachable state of the whole system, a step is a
    step of one stream and invisible to the others. What always holds of a stream
    therefore holds of every stream in every reachable state; and the order of its
    responses holds as long as its own closes come in time, whatever others do. */
module MuxInvariant {
  import opened Data
  import opened Protocol
  import opened Stream
  import opened StreamInvariant
  import opened StreamSteps
  import opened Mux
  import Q = QueueHubModel

  /** What stream o shares with the others in one direction. */
  datatype Piece = Piece(queue: Option<Q.Queue>, links: Hub, wires: seq<Wire>)

  function PieceOf(p: Plane, o: nat): Piece {
    Piece(Q.Entry(p.queues, Master(o)), Own(p.links, o), Mine(p.wires, o))
  }

  ghost predicate Blank(p: Plane, o: nat) {
    PieceOf(p, o) == Piece(None, map[], seq(|p.wires|, _ => []))
  }

  ghost predicate SystemAlways(c: Config, g: System) {
    && c.Valid() && WellFormed(c, g)
    && (forall s :: 0 <= s < |g.ctls| ==> Always(c, s, View(c, g, s)))
    && (forall o :: o >= |g.ctls| ==> Blank(g.up, o) && Blank(g.down, o))
  }

  /** The events take the system from g to g'. */
  ghost predicate Leads(c: Config, g: System, evs: seq<Event>, g': System)
    decreases |evs|
  {
    if evs == [] then g' == g
    else WellFormed(c, g) && CanFire(c, g, evs[0]) && Leads(c, Fire(c, g, evs[0]), evs[1..], g')
  }

  /** No close of the response queue of s along the run overtakes a launched Send. */
  ghost predicate StreamTimely(c: Config, g: System, evs: seq<Event>, s: nat)
    decreases |evs|
  {
    evs != [] ==>
      && WellFormed(c, g) && CanFire(c, g, evs[0]) && TimelyEvent(c, g, evs[0], s)
      && StreamTimely(c, Fire(c, g, evs[0]), evs[1..], s)
  }

  /** Runs from the empty system. */
  ghost predicate Reaches(c: Config, evs: seq<Event>, g: System) {
    Leads(c, Start(c), evs, g)
  }

  /** What a statement about one direction of one stream assumes of a run: nothing for
      requests, and for responses that the closes of their own queue come in time. */
  ghost predicate SoundReaches(c: Config, evs: seq<Event>, g: System, s: nat, d: Dir) {
    Reaches(c, evs, g) && (d.Down? ==> StreamTimely(c, Start(c), evs, s))
  }

  lemma {:induction false} LeadsJoin(c: Config, g: System, xs: seq<Event>, g1: System, ys: seq<Event>, g2: System)
    requires Leads(c, g, xs, g1) && Leads(c, g1, ys, g2)
    ensures Leads(c, g, xs + ys, g2)
    decreases |xs|
  {
    hide Fire, CanFire;
    if xs == [] {
      assert xs + ys == ys;
    } else {
      LeadsJoin(c, Fire(c, g, xs[0]), xs[1..], g1, ys, g2);
      assert (xs + ys)[1..] == xs[1..] + ys;
    }
  }

  lemma LeadsOne(c: Config, g: System, e: Event)
    requires WellFormed(c, g) && CanFire(c, g, e)
    ensures Leads(c, g, [e], Fire(c, g, e))
  {
    hide Fire, CanFire;
    assert [e][1..] == [];
  }

  lemma LeadsNone(c: Config, g: System)
    ensures Leads(c, g, [], g)
  {
  }

  // ---- side conditions of locality --------------------------------------

  lemma InvGivesInside(c: Config, s: nat, v: Stream)
    requires Always(c, s, v)
    ensures RxInside(v.b.up.r, s) && RxInside(v.b.down.r, s)
  {
    hide UpWireInv, DownWireInv, UpQueueInv, DownQueueInv, TxInv, TxShape, Lanes, MergerInv, ShutInv, RemovedInv;
    assert Inside(Order(s, c.n), s) && Inside([], s);
  }

  /** The head of a shared wire is the head of its own stream's part. */
  lemma HeadIsOwn(c: Config, g: System, s: nat, a: Act)
    requires SystemAlways(c, g) && s < |g.ctls| && CanFire(c, g, On(s, a))
    ensures HeadFor(View(c, g, s), a) == SystemHead(g, a)
    ensures HeadInside(SystemHead(g, a), s)
    ensures a.Receive? || a.Discard? ==> SystemHead(g, a).Some?
    ensures SystemHead(g, a).Some? && SystemHead(g, a).value.Hi? ==> SystemHead(g, a).value.master == Master(s)
  {
    hide UpLinksInv, DownLinksInv, UpQueueInv, DownQueueInv, TxInv, TxShape, RxInv, RxShape;
    if SystemHead(g, a).Some? {
      MineDropped(g.At(a.dir).wires, a.lane, s);
      var v := View(c, g, s);
      assert Always(c, s, v);
      assert v.Wires(a.dir)[a.lane][0] == SystemHead(g, a).value;
      assert a.dir.Up? ==> OkUp(c.n, s, v.up[a.lane][0], a.lane);
    }
  }

  /** Streams that have messages on a wire exist. */
  lemma HeadStreamExists(c: Config, g: System, d: Dir, l: nat)
    requires SystemAlways(c, g) && Head(g.At(d).wires, l).Some?
    ensures g.At(d).wires[l][0].id.stream < |g.ctls|
  {
    hide Always;
    var w := g.At(d).wires[l];
    var o := w[0].id.stream;
    assert Filter(w, o) == [w[0]] + Filter(w[1..], o);
    assert Mine(g.At(d).wires, o)[l] != [];
    assert o >= |g.ctls| ==> Blank(g.At(d), o);
  }

  // ---- the projection theorem -------------------------------------------

  /** The state before the wires change. */
  lemma FireShape(c: Config, g: System, s: nat, a: Act)
    requires WellFormed(c, g) && CanFire(c, g, On(s, a))
    ensures WellFormed(c, Fire(c, g, On(s, a)))
    ensures |Fire(c, g, On(s, a)).ctls| == |g.ctls|
  {
    hide Core, CorePost;
  }

  lemma InsideWhole(c: Config, g: System, s: nat)
    requires SystemAlways(c, g) && s < |g.ctls|
    ensures RxInside(BothOf(g, s).up.r, s) && RxInside(BothOf(g, s).down.r, s)
  {
    hide Always;
    InvGivesInside(c, s, View(c, g, s));
  }

  lemma LoopsAreOwn(c: Config, s: nat, v: Stream, a: Act, now: nat)
    requires Always(c, s, v) && Enabled(c, s, v, a)
    ensures a.Tx_? && a.tx.SendPut? ==> TxEnabled(c, v.b.At(a.dir).t, SendPut) && TxPost(c, v.b.At(a.dir).t, now).1.id.stream == s
    ensures a.Again? && a.tx.SendPut? ==>
      && a.k < |v.b.At(a.dir).t.tx.extra| && TxEnabled(c, Focus(v.b.At(a.dir).t, a.k), SendPut)
      && TxPost(c, Focus(v.b.At(a.dir).t, a.k), now).1.id.stream == s
  {
    hide UpWireInv, DownWireInv, UpLinksInv, DownLinksInv, UpQueueInv, DownQueueInv, TxInv, TxShape, RxInv, RxShape, TxPost, TxEnabled, AgainEnabled;
    if (a.Tx_? || a.Again?) && a.tx.SendPut? {
      var t := v.b.At(a.dir).t;
      if a.dir.Up? { TxInvShape(c.n, s, t); }
      if a.Tx_? {
        LoopWritesOwn(c, s, t, now);
      } else {
        AgainPuts(c, s, t, a.k);
        LoopWritesOwn(c, s, Focus(t, a.k), now);
      }
    }
  }

  /** What a step writes carries an id of its own stream. */
  lemma PostIsOwn(c: Config, g: System, s: nat, a: Act)
    requires SystemAlways(c, g) && CanFire(c, g, On(s, a)) && !a.Receive? && !a.Discard?
    ensures CoreEnabled(c, s, OwnBoth(BothOf(g, s), s), a, None)
    ensures CorePost(c, s, BothOf(g, s), a, g.clock) == CorePost(c, s, OwnBoth(BothOf(g, s), s), a, g.clock)
    ensures CorePost(c, s, BothOf(g, s), a, g.clock).Some? ==>
      CorePost(c, s, BothOf(g, s), a, g.clock).value.2.id.stream == s
  {
    hide UpWireInv, DownWireInv, UpLinksInv, DownLinksInv, UpQueueInv, DownQueueInv, TxInv, TxShape, RxInv, RxShape, TxPost, RxEnabled;
    var v := View(c, g, s);
    assert Always(c, s, v);
    InsideWhole(c, g, s);
    CoreLocal(c, s, BothOf(g, s), a, g.clock, None, s);
    LoopsAreOwn(c, s, v, a, g.clock);
  }

  /** How the shared wires of one direction change. */
  function WiresAfter(c: Config, g: System, s: nat, a: Act, d: Dir): seq<Wire>
    requires WellFormed(c, g) && CanFire(c, g, On(s, a))
  {
    var wires := g.At(d).wires;
    if a.Receive? || a.Discard? then if a.dir == d then Dropped(wires, a.lane) else wires
    else match CorePost(c, s, BothOf(g, s), a, g.clock)
         case None => wires
         case Some((e, lane, m)) => if e == d then Posted(wires, lane, m) else wires
  }

  lemma OtherWires(c: Config, g: System, s: nat, a: Act, o: nat, d: Dir)
    requires SystemAlways(c, g) && CanFire(c, g, On(s, a)) && o != s
    ensures Mine(WiresAfter(c, g, s, a, d), o) == Mine(g.At(d).wires, o)
  {
    hide Always, Core, CoreEnabled, CorePost, Mine;
    HeadIsOwn(c, g, s, a);
    if a.Receive? || a.Discard? {
      MineDropped(g.At(a.dir).wires, a.lane, o);
    } else {
      PostIsOwn(c, g, s, a);
      match CorePost(c, s, BothOf(g, s), a, g.clock)
      case None =>
      case Some((e, lane, m)) => MinePosted(g.At(e).wires, lane, m, o);
    }
  }

  lemma FireParts(c: Config, g: System, s: nat, a: Act)
    requires WellFormed(c, g) && CanFire(c, g, On(s, a))
    ensures var g', b := Fire(c, g, On(s, a)), Core(c, s, BothOf(g, s), a, g.clock, SystemHead(g, a));
      && g'.up == PutEnds(g.up, s, b.up).(wires := WiresAfter(c, g, s, a, Up))
      && g'.down == PutEnds(g.down, s, b.down).(wires := WiresAfter(c, g, s, a, Down))
      && g'.ctls == g.ctls[s := b.ctl]
  {
    hide Core, CorePost;
  }

  lemma PiecesAfter(c: Config, g: System, s: nat, a: Act, o: nat)
    requires SystemAlways(c, g) && CanFire(c, g, On(s, a)) && o != s
    ensures PieceOf(Fire(c, g, On(s, a)).up, o) == PieceOf(g.up, o)
    ensures PieceOf(Fire(c, g, On(s, a)).down, o) == PieceOf(g.down, o)
  {
    hide Always, Core, CoreEnabled, Own, Mine, Fire, WiresAfter;
    HeadIsOwn(c, g, s, a);
    InsideWhole(c, g, s);
    CoreLocal(c, s, BothOf(g, s), a, g.clock, SystemHead(g, a), o);
    FireParts(c, g, s, a);
    OtherWires(c, g, s, a, o, Up);
    OtherWires(c, g, s, a, o, Down);
  }

  lemma OtherView(c: Config, g: System, g': System, s: nat, a: Act, o: nat)
    requires SystemAlways(c, g) && CanFire(c, g, On(s, a)) && o != s && o < |g.ctls|
    requires g' == Fire(c, g, On(s, a)) && WellFormed(c, g') && |g'.ctls| == |g.ctls|
    ensures View(c, g', o) == View(c, g, o)
  {
    hide Always, Core, CoreEnabled, Own, Mine, Fire, WiresAfter;
    PiecesAfter(c, g, s, a, o);
    FireParts(c, g, s, a);
  }

  lemma OwnWires(c: Config, g: System, s: nat, a: Act)
    requires SystemAlways(c, g) && CanFire(c, g, On(s, a))
    requires Enabled(c, s, View(c, g, s), a)
    ensures Step(c, s, View(c, g, s), a, g.clock).up == Mine(WiresAfter(c, g, s, a, Up), s)
    ensures Step(c, s, View(c, g, s), a, g.clock).down == Mine(WiresAfter(c, g, s, a, Down), s)
  {
    hide Always, Core, CoreEnabled, CorePost, Mine;
    HeadIsOwn(c, g, s, a);
    if a.Receive? || a.Discard? {
      MineDropped(g.At(a.dir).wires, a.lane, s);
    } else {
      PostIsOwn(c, g, s, a);
      match CorePost(c, s, BothOf(g, s), a, g.clock)
      case None =>
      case Some((e, lane, m)) => MinePosted(g.At(e).wires, lane, m, s);
    }
  }

  lemma OwnEnabled(c: Config, g: System, s: nat, a: Act)
    requires SystemAlways(c, g) && CanFire(c, g, On(s, a))
    ensures Enabled(c, s, View(c, g, s), a)
  {
    hide Always, Core, CoreEnabled, Own, Mine;
    HeadIsOwn(c, g, s, a);
    InsideWhole(c, g, s);
    CoreLocal(c, s, BothOf(g, s), a, g.clock, SystemHead(g, a), s);
  }

  lemma OwnView(c: Config, g: System, g': System, s: nat, a: Act)
    requires SystemAlways(c, g) && CanFire(c, g, On(s, a))
    requires g' == Fire(c, g, On(s, a)) && WellFormed(c, g') && |g'.ctls| == |g.ctls|
    requires Enabled(c, s, View(c, g, s), a)
    ensures View(c, g', s) == Step(c, s, View(c, g, s), a, g.clock)
  {
    hide Always, Core, CoreEnabled, CorePost, Own, Mine, Fire, WiresAfter;
    HeadIsOwn(c, g, s, a);
    InsideWhole(c, g, s);
    CoreLocal(c, s, BothOf(g, s), a, g.clock, SystemHead(g, a), s);
    FireParts(c, g, s, a);
    OwnWires(c, g, s, a);
  }

  /** A step of the system is the same step of one stream on its own part of the
      hubs and wires, and no other stream can tell that it happened. */
  lemma Projection(c: Config, g: System, g': System, s: nat, a: Act)
    requires SystemAlways(c, g) && CanFire(c, g, On(s, a)) && g' == Fire(c, g, On(s, a))
    ensures WellFormed(c, g') && |g'.ctls| == |g.ctls|
    ensures Enabled(c, s, View(c, g, s), a)
    ensures View(c, g', s) == Step(c, s, View(c, g, s), a, g.clock)
    ensures forall o :: 0 <= o < |g.ctls| && o != s ==> View(c, g', o) == View(c, g, o)
  {
    hide Always, Fire, View, Step, Enabled, CanFire;
    FireShape(c, g, s, a);
    OwnEnabled(c, g, s, a);
    OwnView(c, g, g', s, a);
    forall o | 0 <= o < |g.ctls| && o != s ensures View(c, g', o) == View(c, g, o) {
      OtherView(c, g, g', s, a, o);
    }
  }

  lemma {:induction false} LeadsGrows(c: Config, g: System, evs: seq<Event>, g': System)
    requires WellFormed(c, g) && Leads(c, g, evs, g')
    ensures WellFormed(c, g') && |g.ctls| <= |g'.ctls|
    decreases |evs|
  {
    if evs != [] {
      if evs[0].On? { FireShape(c, g, evs[0].s, evs[0].a); }
      hide CanFire;
      LeadsGrows(c, Fire(c, g, evs[0]), evs[1..], g');
    }
  }

  // ---- every reachable state --------------------------------------------

  lemma StartAlways(c: Config)
    requires c.Valid()
    ensures SystemAlways(c, Start(c))
  {
    var g := Start(c);
    forall o | o >= 0 ensures Blank(g.up, o) && Blank(g.down, o) {
      assert Mine(g.up.wires, o) == seq(c.n, _ => []);
      assert Own(g.up.links, o) == map[];
    }
  }

  /** A stream that is opened starts afresh, and no other stream can tell. */
  lemma OpenView(c: Config, g: System)
    requires SystemAlways(c, g)
    ensures var g' := Fire(c, g, Open);
      && WellFormed(c, g') && |g'.ctls| == |g.ctls| + 1 && View(c, g', |g.ctls|) == NewStream(c.n)
      && forall o :: 0 <= o < |g.ctls| ==> View(c, g', o) == View(c, g, o)
  {
    hide Always, Own, Mine;
    assert Blank(g.up, |g.ctls|) && Blank(g.down, |g.ctls|);
  }

  lemma OpenKeeps(c: Config, g: System)
    requires SystemAlways(c, g)
    ensures SystemAlways(c, Fire(c, g, Open))
  {
    hide Always, Own, Mine;
    var g' := Fire(c, g, Open);
    OpenView(c, g);
    NewStreamInv(c, |g.ctls|);
    forall o | o >= |g'.ctls| ensures Blank(g'.up, o) && Blank(g'.down, o) {
      assert Blank(g.up, o) && Blank(g.down, o);
    }
  }

  lemma ActKeeps(c: Config, g: System, s: nat, a: Act)
    requires SystemAlways(c, g) && CanFire(c, g, On(s, a))
    ensures SystemAlways(c, Fire(c, g, On(s, a)))
  {
    hide Always, Ordered, Fire, View, Step, Enabled, CanFire, PieceOf;
    var g' := Fire(c, g, On(s, a));
    Projection(c, g, g', s, a);
    assert s < |g.ctls| by { StreamExists(c, g, s, a); }
    StepKeeps(c, s, View(c, g, s), a, g.clock);
    forall o | o >= |g.ctls| ensures Blank(g'.up, o) && Blank(g'.down, o) {
      assert Blank(g.up, o) && Blank(g.down, o);
      PiecesAfter(c, g, s, a, o);
    }
  }

  lemma StreamExists(c: Config, g: System, s: nat, a: Act)
    requires WellFormed(c, g) && CanFire(c, g, On(s, a))
    ensures s < |g.ctls|
  {
  }

  lemma EventKeeps(c: Config, g: System, e: Event)
    requires SystemAlways(c, g) && CanFire(c, g, e)
    ensures SystemAlways(c, Fire(c, g, e))
  {
    hide SystemAlways, Fire, CanFire;
    match e
    case Open => OpenKeeps(c, g);
    case On(s, a) => ActKeeps(c, g, s, a);
  }

  lemma {:induction false} LeadsKeeps(c: Config, g: System, evs: seq<Event>, g': System)
    requires SystemAlways(c, g) && Leads(c, g, evs, g')
    ensures SystemAlways(c, g')
    decreases |evs|
  {
    hide SystemAlways, Fire, CanFire;
    if evs != [] {
      EventKeeps(c, g, evs[0]);
      LeadsKeeps(c, Fire(c, g, evs[0]), evs[1..], g');
    }
  }

  /** In every reachable state, of every stream, what always holds holds. */
  lemma ReachableAlways(c: Config, evs: seq<Event>, g: System)
    requires c.Valid() && Reaches(c, evs, g)
    ensures SystemAlways(c, g)
  {
    hide SystemAlways, Fire, CanFire;
    StartAlways(c);
    LeadsKeeps(c, Start(c), evs, g);
  }

  /** One event as one stream sees it: a step of its own, or nothing. */
  lemma EventView(c: Config, g: System, e: Event, s: nat)
    requires SystemAlways(c, g) && CanFire(c, g, e) && s < |g.ctls|
    ensures var g' := Fire(c, g, e);
      && SystemAlways(c, g') && |g.ctls| <= |g'.ctls|
      && (e.On? && e.s == s ==>
            Enabled(c, s, View(c, g, s), e.a) && View(c, g', s) == Step(c, s, View(c, g, s), e.a, g.clock))
      && (!(e.On? && e.s == s) ==> View(c, g', s) == View(c, g, s))
  {
    hide Always, CanFire, Step, Enabled;
    EventKeeps(c, g, e);
    if e.On? {
      hide Fire, View;
      Projection(c, g, Fire(c, g, e), e.s, e.a);
    } else {
      OpenView(c, g);
    }
  }

  /** The order of a stream's responses survives every event, its own closes in time. */
  lemma OrderedKept(c: Config, g: System, e: Event, s: nat)
    requires SystemAlways(c, g) && CanFire(c, g, e) && TimelyEvent(c, g, e, s)
    requires s < |g.ctls| ==> Ordered(c.n, s, View(c, g, s))
    ensures var g' := Fire(c, g, e);
      && SystemAlways(c, g') && (s < |g'.ctls| ==> Ordered(c.n, s, View(c, g', s)))
  {
    hide Always, Ordered, CanFire, Step, Enabled, View;
    if s < |g.ctls| {
      EventView(c, g, e, s);
      if e.On? && e.s == s {
        TimelyView(c, g, s, e.a);
        StepKeeps(c, s, View(c, g, s), e.a, g.clock);
      }
    } else {
      EventKeeps(c, g, e);
      if e.On? {
        FireShape(c, g, e.s, e.a);
      } else {
        OpenView(c, g);
        NewStreamInv(c, |g.ctls|);
      }
    }
  }

  lemma TimelyView(c: Config, g: System, s: nat, a: Act)
    requires WellFormed(c, g) && s < |g.ctls| && TimelyEvent(c, g, On(s, a), s)
    ensures OwnTimely(View(c, g, s).b, a)
  {
  }

  lemma {:induction false} LeadsOrdered(c: Config, g: System, evs: seq<Event>, g': System, s: nat)
    requires SystemAlways(c, g) && Leads(c, g, evs, g') && StreamTimely(c, g, evs, s)
    requires s < |g.ctls| ==> Ordered(c.n, s, View(c, g, s))
    ensures SystemAlways(c, g') && (s < |g'.ctls| ==> Ordered(c.n, s, View(c, g', s)))
    decreases |evs|
  {
    hide Always, Ordered, Fire, CanFire, TimelyEvent, View;
    if evs != [] {
      OrderedKept(c, g, evs[0], s);
      LeadsOrdered(c, Fire(c, g, evs[0]), evs[1..], g', s);
    }
  }

  /** The requests of a stream are sound in every reachable state; its responses in every
      state reached with its own closes in time, whatever other streams do. */
  lemma ReachableSound(c: Config, evs: seq<Event>, g: System, s: nat, d: Dir)
    requires c.Valid() && SoundReaches(c, evs, g, s, d) && s < |g.ctls|
    ensures SystemAlways(c, g) && Sound(c, s, View(c, g, s), d)
  {
    hide Always, Ordered, Fire, CanFire, TimelyEvent, View;
    ReachableAlways(c, evs, g);
    if d.Down? {
      StartAlways(c);
      LeadsOrdered(c, Start(c), evs, g, s);
    }
  }

  lemma HoldsFor(c: Config, g: System, s: nat)
    requires SystemAlways(c, g) && s < |g.ctls|
    ensures Always(c, s, View(c, g, s)) && WellFormed(c, g) && c.Valid()
  {
    hide Always, View;
  }
}
