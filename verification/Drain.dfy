/** Termination: every internal event takes one message or one goroutine closer
    to its end, so a system without new input becomes quiet. */
module Drain {
  import opened Data
  import opened RoundRobin
  import opened Protocol
  import opened Stream
  import opened StreamInvariant
  import opened Mux
  import opened MuxInvariant
  import opened OneEnd
  import opened Inputs
  import opened Guarantees
  import opened Calm
  import opened Stamps
  import opened Progress
  import Q = QueueHubModel
  import L = LinkHubModel

  const WIRE := 10

  function If(b: bool, w: nat): nat { if b then w else 0 }

  /** Hops a chunk still has to make on the sending side, plus loop position. */
  function TxWeight(tx: Tx): int {
    If(tx.source.Pushing?, 60) + 40 * (|tx.line| - tx.taken) + 30 * (tx.taken - |tx.dealt|) + tx.pending
    + match tx.sender
      case NotBegun => 5
      case Check => 2
      case Take(_) => 1
      case _ => 0
  }

  function RxWeight(rx: Rx): int {
    -6 * rx.popped
    + match rx.merger
      case Dormant => 5
      case Launched => 4
      case Round => 3
      case Find(_) => 2
      case Read(_, _) => 1
      case Write(_, _) => 5
      case Over => 0
  }

  function EndWeight(tx: Tx, rx: Rx): int {
    TxWeight(tx) + 6 * |tx.dealt| + RxWeight(rx)
  }

  function CtlWeight(n: nat, x: Ctl): int {
    20 * (n - x.said) + 20 * (n - x.added) + If(!x.est, 20) + If(!x.queueStarted, 3) + If(!x.linkFound, 1)
    + If(!x.linkStarted, 1) + If(x.dial.NotYet?, 3) + If(!x.serving, 3)
  }

  function BothWeight(n: nat, b: Both): int {
    EndWeight(b.up.t.tx, b.up.r.rx) + EndWeight(b.down.t.tx, b.down.r.rx) + CtlWeight(n, b.ctl)
  }

  /** Messages written minus messages taken off by a step. */
  function Traffic(a: Act): int {
    if a.Receive? then -1
    else if a == Say || a == SendEst || (a.Tx_? && a.tx.SendPut?) then 1
    else 0
  }

  lemma TxLighter(c: Config, s: nat, t: TxEnd, a: TxAct, now: nat, rx: Rx)
    requires c.Valid() && TxInv(c.n, s, t) && TxEnabled(c, t, a) && CalmTx(t) && Internal(Tx_(Up, a))
    ensures EndWeight(TxStep(c, t, a, now).tx, rx) + WIRE * Traffic(Tx_(Up, a)) < EndWeight(t.tx, rx)
  {
    hide Bytes, Lane, EofLast, NoEof, SourceInv, Equipped, Q.Ready;
  }

  lemma RxLighter(r: RxEnd, master: Id, a: RxAct, tx: Tx)
    requires RxEnabled(r, a) && Internal(Rx_(Up, a)) && (r.rx.merger.Read? ==> r.rx.merger.orphan.None?)
    ensures EndWeight(tx, RxStep(r, master, a).rx) < EndWeight(tx, r.rx)
  {
  }

  /** Launching costs at most one. */
  lemma LaunchWeight(t: TxEnd, r: RxEnd, master: Id)
    ensures TxWeight(TryLaunch(t).tx) <= TxWeight(t.tx) + 1 && TryLaunch(t).tx.dealt == t.tx.dealt
    ensures RxWeight(TryLaunchLinks(r, master).rx) <= RxWeight(r.rx)
  {
  }

  lemma ReceiveLighter(c: Config, s: nat, b: Both, d: Dir, lane: nat, now: nat, head: Option<Msg>)
    requires CoreEnabled(c, s, b, Receive(d, lane), head)
    ensures BothWeight(c.n, Core(c, s, b, Receive(d, lane), now, head)) < BothWeight(c.n, b) + WIRE
  {
    hide TryLaunch, TryLaunchLinks, TxWeight, RxWeight, Accept, L.AddLink, L.SortLink, Q.WithSort, Q.WithWriter;
    match head.value
    case Hi(id, master, _) =>
      LaunchWeight(b.down.t.(queue := Some(Q.WithWriter(b.down.t.queue, id, lane))),
                   b.up.r.(links := L.AddLink(b.up.r.links, id, master)), master);
    case Est(_, _, _) =>
    case Carry(_, _) =>
  }

  lemma ClientLighter(c: Config, s: nat, b: Both, a: Act, now: nat)
    requires CoreEnabled(c, s, b, a, None) && CtlInv(c.n, b.ctl)
    requires a == Say || a == Register || a == SendEst || a == StartQueue || a == FindLink || a == StartLink
    requires a == StartQueue ==> b.up.t.tx.source.Off?
    ensures BothWeight(c.n, Core(c, s, b, a, now, None)) + WIRE * Traffic(a) < BothWeight(c.n, b)
  {
    hide TryLaunch, TryLaunchLinks, L.AddLink, L.SortLink, L.ConnectLink, Q.WithSort, Q.WithWriter, TxEnabled, RxEnabled;
    if a == Register {
      var lane := b.ctl.added;
      LaunchWeight(b.up.t.(queue := Some(Q.WithWriter(b.up.t.queue, Id(s, lane), lane))),
                   b.down.r.(links := L.AddLink(b.down.r.links, Id(s, lane), Master(s))), Master(s));
    }
  }

  lemma ServerLighter(c: Config, s: nat, b: Both, a: Act, now: nat)
    requires CoreEnabled(c, s, b, a, None) && (a == Connect(true) || a == Serve)
    requires a == Serve ==> b.down.t.tx.source.Off?
    ensures BothWeight(c.n, Core(c, s, b, a, now, None)) < BothWeight(c.n, b)
  {
    hide TryLaunch, TryLaunchLinks, L.ConnectLink, TxEnabled, RxEnabled;
    LaunchWeight(b.down.t, b.up.r.(links := L.ConnectLink(b.up.r.links, Master(s))), Master(s));
    SourceWeight(TryLaunch(b.down.t).tx);
  }

  lemma SourceWeight(tx: Tx)
    ensures TxWeight(tx.(source := Reading)) <= TxWeight(tx) && TxWeight(tx.(source := Off)) <= TxWeight(tx)
  {
  }

  lemma StepLighter(c: Config, s: nat, v: Stream, a: Act, now: nat)
    requires Inv(c, s, v) && CalmInv(v) && Enabled(c, s, v, a) && Internal(a)
    ensures BothWeight(c.n, Step(c, s, v, a, now).b) + WIRE * Traffic(a) < BothWeight(c.n, v.b)
  {
    hide Always, Ordered, Step, BothWeight, TxInv, RxInv, CoreEnabled, Core, TxEnabled, RxEnabled, TxStep, RxStep, CalmInv, CtlInv;
    StepIsCore(c, s, v, a, now);
    OffBeforeStart(c, s, v);
    match a
    case Receive(d, lane) => ReceiveLighter(c, s, v.b, d, lane, now, HeadFor(v, a));
    case Tx_(d, x) => TxStepLighter(c, s, v, d, x, now);
    case Rx_(d, x) => RxStepLighter(c, s, v, d, x, now);
    case _ => OtherStepLighter(c, s, v, a, now);
  }

  lemma OtherStepLighter(c: Config, s: nat, v: Stream, a: Act, now: nat)
    requires Inv(c, s, v) && Enabled(c, s, v, a) && Internal(a) && !a.Receive? && !a.Tx_? && !a.Rx_?
    ensures BothWeight(c.n, Core(c, s, v.b, a, now, None)) + WIRE * Traffic(a) < BothWeight(c.n, v.b)
  {
    hide UpWireInv, DownWireInv, UpLinksInv, DownLinksInv, UpQueueInv, DownQueueInv, TxInv, RxInv, BothWeight, Core, TxEnabled, RxEnabled;
    OffBeforeStart(c, s, v);
    if a.Connect? || a == Serve {
      ServerLighter(c, s, v.b, a, now);
    } else {
      ClientLighter(c, s, v.b, a, now);
    }
  }

  lemma TxStepLighter(c: Config, s: nat, v: Stream, d: Dir, x: TxAct, now: nat)
    requires Inv(c, s, v) && CalmInv(v) && Enabled(c, s, v, Tx_(d, x)) && Internal(Tx_(d, x))
    ensures BothWeight(c.n, Core(c, s, v.b, Tx_(d, x), now, None)) + WIRE * Traffic(Tx_(d, x)) < BothWeight(c.n, v.b)
  {
    hide Always, Ordered, TxInv, RxInv, TxEnabled, TxStep, EndWeight, CalmTx;
    EndFacts(c, s, v, d);
    TxLighter(c, s, v.b.At(d).t, x, now, v.b.At(d).r.rx);
  }

  lemma RxStepLighter(c: Config, s: nat, v: Stream, d: Dir, x: RxAct, now: nat)
    requires Inv(c, s, v) && CalmInv(v) && Enabled(c, s, v, Rx_(d, x)) && Internal(Rx_(d, x))
    ensures BothWeight(c.n, Core(c, s, v.b, Rx_(d, x), now, None)) < BothWeight(c.n, v.b)
  {
    hide Always, Ordered, TxInv, RxEnabled, RxStep, EndWeight, CalmTx, Lanes, ShutInv, RemovedInv;
    EndFacts(c, s, v, d);
    RxLighter(v.b.At(d).r, Master(s), x, v.b.At(d).t.tx);
  }

  // ---- the whole system --------------------------------------------------

  function Weights(c: Config, g: System, k: nat): int
    requires WellFormed(c, g) && k <= |g.ctls|
  {
    if k == 0 then 0 else Weights(c, g, k - 1) + BothWeight(c.n, BothOf(g, k - 1))
  }

  /** Remaining hops of everything in flight, plus remaining set-up steps. */
  function Measure(c: Config, g: System): int
    requires WellFormed(c, g)
  {
    WIRE * (Total(g.up.wires) + Total(g.down.wires)) + Weights(c, g, |g.ctls|)
  }

  lemma ViewWeight(c: Config, g: System, s: nat)
    requires WellFormed(c, g) && s < |g.ctls|
    ensures BothWeight(c.n, View(c, g, s).b) == BothWeight(c.n, BothOf(g, s))
  {
  }

  lemma WeightIsNat(c: Config, s: nat, v: Stream)
    requires Inv(c, s, v)
    ensures BothWeight(c.n, v.b) >= 0
  {
    hide Always, Ordered, TxInv, RxInv;
    EndIsNat(c, s, v, Up);
    EndIsNat(c, s, v, Down);
    CtlIsNat(c, s, v);
  }

  lemma EndIsNat(c: Config, s: nat, v: Stream, d: Dir)
    requires Inv(c, s, v)
    ensures EndWeight(v.b.At(d).t.tx, v.b.At(d).r.rx) >= 0
  {
    hide Always, Ordered, Lanes, MergerInv, ShutInv, RemovedInv, SourceInv, SenderInv, ObjectInv, EofLast, Q.Ready;
    EndFacts(c, s, v, d);
  }

  lemma CtlIsNat(c: Config, s: nat, v: Stream)
    requires Inv(c, s, v)
    ensures CtlWeight(c.n, v.b.ctl) >= 0
  {
    hide UpWireInv, DownWireInv, UpLinksInv, DownLinksInv, UpQueueInv, DownQueueInv, TxInv, RxInv;
  }

  lemma {:induction false} WeightsAreNat(c: Config, g: System, k: nat)
    requires CalmSystem(c, g) && k <= |g.ctls|
    ensures Weights(c, g, k) >= 0
  {
    hide Always, Ordered, CalmInv, StampInv, BothWeight;
    if k > 0 {
      WeightsAreNat(c, g, k - 1);
      assert CalmStream(c, g, k - 1);
      WeightIsNat(c, k - 1, View(c, g, k - 1));
      ViewWeight(c, g, k - 1);
    }
  }

  lemma {:induction false} WeightsChange(c: Config, g: System, g': System, s: nat, k: nat)
    requires WellFormed(c, g) && WellFormed(c, g') && |g'.ctls| == |g.ctls| && s < |g.ctls| && k <= |g.ctls|
    requires forall o :: 0 <= o < |g.ctls| && o != s ==> View(c, g', o) == View(c, g, o)
    ensures Weights(c, g', k) - Weights(c, g, k)
         == if s < k then BothWeight(c.n, View(c, g', s).b) - BothWeight(c.n, View(c, g, s).b) else 0
  {
    hide BothWeight, View;
    if k > 0 {
      WeightsChange(c, g, g', s, k - 1);
      ViewWeight(c, g, k - 1);
      ViewWeight(c, g', k - 1);
    }
  }

  lemma WireCount(c: Config, g: System, s: nat, a: Act)
    requires SystemAlways(c, g) && CanFire(c, g, On(s, a)) && Internal(a)
    ensures Total(WiresAfter(c, g, s, a, Up)) + Total(WiresAfter(c, g, s, a, Down))
         <= Total(g.up.wires) + Total(g.down.wires) + Traffic(a)
  {
    hide Always, Ordered, Core, Total, Own, Mine;
    HeadIsOwn(c, g, s, a);
    if a.Receive? {
      var w := g.At(a.dir).wires;
      TotalUpdate(w, a.lane, w[a.lane][1..]);
    } else if CorePost(c, s, BothOf(g, s), a, g.clock).Some? {
      var (d, lane, m) := CorePost(c, s, BothOf(g, s), a, g.clock).value;
      var w := g.At(d).wires;
      if lane < |w| {
        TotalUpdate(w, lane, w[lane] + [m]);
      }
    }
  }

  /** Every internal event makes the measure smaller. */
  lemma InternalDecreases(c: Config, g: System, e: Event)
    requires CalmSystem(c, g) && CanFire(c, g, e) && InternalEvent(e)
    ensures CalmSystem(c, Fire(c, g, e))
    ensures 0 <= Measure(c, Fire(c, g, e)) < Measure(c, g)
  {
    var g', s, a := Fire(c, g, e), e.s, e.a;
    CalmEventKeeps(c, g, e);
    hide Always, Ordered, CalmInv, CanFire, Fire, View, Step, Enabled, BothWeight, Total, StampInv, WiresAfter;
    Projection(c, g, g', s, a);
    StreamExists(c, g, s, a);
    assert CalmStream(c, g, s);
    StepLighter(c, s, View(c, g, s), a, g.clock);
    WeightsChange(c, g, g', s, |g.ctls|);
    WeightsAreNat(c, g', |g'.ctls|);
    WireCount(c, g, s, a);
    FireParts(c, g, s, a);
  }

  /** So internal runs are bounded by the measure of the state they start from. */
  lemma {:induction false} InternalRunsEnd(c: Config, g: System, evs: seq<Event>, g': System)
    requires CalmSystem(c, g) && Leads(c, g, evs, g') && forall e <- evs :: InternalEvent(e)
    ensures CalmSystem(c, g') && |evs| + Measure(c, g') <= Measure(c, g)
    decreases |evs|
  {
    hide CalmSystem, CanFire, Fire, Measure, InternalEvent;
    if evs != [] {
      InternalDecreases(c, g, evs[0]);
      InternalRunsEnd(c, Fire(c, g, evs[0]), evs[1..], g');
    }
  }

  lemma {:induction false} Drains(c: Config, g: System) returns (evs: seq<Event>, g': System)
    requires CalmSystem(c, g)
    ensures CalmSystem(c, g') && Leads(c, g, evs, g') && (forall e <- evs :: InternalEvent(e))
    ensures |evs| <= Measure(c, g) && Quiet(c, g')
    decreases Measure(c, g)
  {
    hide CalmSystem, CanFire, Fire, Measure, Internal;
    ShapeOf(c, g);
    if Quiet(c, g) {
      MeasureIsNat(c, g);
      evs, g' := [], g;
    } else {
      var s: nat, a: Act :| Internal(a) && CanFire(c, g, On(s, a));
      InternalDecreases(c, g, On(s, a));
      var rest, last := Drains(c, Fire(c, g, On(s, a)));
      evs, g' := [On(s, a)] + rest, last;
      assert evs[1..] == rest;
    }
  }

  ghost predicate AllDelivered(c: Config, evs: seq<Event>, g: System)
    requires WellFormed(c, g)
  {
    forall s, d: Dir :: 0 <= s < |g.ctls| ==> Delivered(c, evs, g, s, d)
  }

  lemma InternalIsCalm(e: Event)
    requires InternalEvent(e)
    ensures CalmEvent(e)
  {
  }

  /** However internal events are scheduled after a calm reachable state, they are
      at most Measure many, and when none is left everything read has been written and
      every end that was read has been passed on. */
  lemma MaximalRunDelivers(c: Config, evs: seq<Event>, g: System, more: seq<Event>, g': System)
    requires c.Valid() && CalmReaches(c, evs, g)
    requires Leads(c, g, more, g') && (forall e <- more :: InternalEvent(e))
    ensures WellFormed(c, g) && WellFormed(c, g') && |more| <= Measure(c, g)
    ensures Quiet(c, g') ==> AllDelivered(c, evs + more, g')
  {
    hide CalmSystem, Leads, Quiet, Measure, CalmEvent, InternalEvent, Delivered;
    CalmReachable(c, evs, g);
    InternalRunsEnd(c, g, more, g');
    MeasureIsNat(c, g');
    ShapeOf(c, g);
    ShapeOf(c, g');
    if Quiet(c, g') {
      LeadsJoin(c, Start(c), evs, g, more, g');
      forall e | e in more ensures CalmEvent(e) { InternalIsCalm(e); }
      forall s, d: Dir | 0 <= s < |g'.ctls| ensures Delivered(c, evs + more, g', s, d) {
        QuietMeansDelivered(c, evs + more, g', s, d);
      }
    }
  }

  /** And such a run exists: no schedule is needed beyond taking enabled steps. */
  lemma InFlightDrains(c: Config, evs: seq<Event>, g: System) returns (more: seq<Event>, g': System)
    requires c.Valid() && CalmReaches(c, evs, g)
    ensures Leads(c, g, more, g') && (forall e <- more :: InternalEvent(e))
    ensures WellFormed(c, g') && AllDelivered(c, evs + more, g')
  {
    hide CalmSystem, Leads, Quiet, Measure, InternalEvent, AllDelivered, CalmReaches;
    CalmReachable(c, evs, g);
    more, g' := Drains(c, g);
    MaximalRunDelivers(c, evs, g, more, g');
  }

  /** While a connection is being read, new input or its end can come at any time, and
      there is a run that carries it to the other side. */
  lemma InputArrives(c: Config, evs: seq<Event>, g: System, s: nat, d: Dir, x: TxAct) returns (more: seq<Event>, g': System)
    requires c.Valid() && CalmReaches(c, evs, g) && WellFormed(c, g) && s < |g.ctls|
    requires g.At(d).txs[s].source.Reading? && (x.SrcEof? || (x.SrcRead? && x.data != []))
    ensures var run := [On(s, Tx_(d, x))] + more;
      && Leads(c, g, run, g') && WellFormed(c, g') && s < |g'.ctls|
      && g'.At(d).rxs[s].out == ReadBy(evs, s, d) + (if x.SrcRead? then x.data else [])
      && (x.SrcEof? ==> g'.At(d).rxs[s].shut)
  {
    hide Leads, Quiet, Measure, InternalEvent, CalmEvent, ReadBy;
    var e := On(s, Tx_(d, x));
    Reads(c, g, s, d, x);
    var g1 := Fire(c, g, e);
    LeadsOne(c, g, e);
    LeadsJoin(c, Start(c), evs, g, [e], g1);
    hide Fire, CanFire;
    more, g' := InFlightDrains(c, evs + [e], g1);
    LeadsJoin(c, g, [e], g1, more, g');
    LeadsGrows(c, g1, more, g');
    assert Delivered(c, evs + [e] + more, g', s, d);
    assert x.SrcEof? ==> (evs + [e] + more)[|evs|] == On(s, Tx_(d, SrcEof));
    ReadByJoin(evs + [e], more, s, d);
    ReadByJoin(evs, [e], s, d);
    ReadAlone(e, s, d);
    InternalReadsNothing(more, s, d);
  }

  lemma Reads(c: Config, g: System, s: nat, d: Dir, x: TxAct)
    requires WellFormed(c, g) && s < |g.ctls|
    requires g.At(d).txs[s].source.Reading? && (x.SrcEof? || (x.SrcRead? && x.data != []))
    ensures CanFire(c, g, On(s, Tx_(d, x))) && CalmEvent(On(s, Tx_(d, x)))
    ensures WellFormed(c, Fire(c, g, On(s, Tx_(d, x)))) && |Fire(c, g, On(s, Tx_(d, x))).ctls| == |g.ctls|
  {
  }

  lemma ReadAlone(e: Event, s: nat, d: Dir)
    ensures ReadBy([e], s, d) == ReadIn(e, s, d)
  {
    assert [e][1..] == [];
  }

  lemma {:induction false} InternalReadsNothing(evs: seq<Event>, s: nat, d: Dir)
    requires forall e <- evs :: InternalEvent(e)
    ensures ReadBy(evs, s, d) == []
  {
    if evs != [] {
      assert InternalEvent(evs[0]);
      InternalReadsNothing(evs[1..], s, d);
    }
  }

  lemma MeasureIsNat(c: Config, g: System)
    requires CalmSystem(c, g)
    ensures Measure(c, g) >= 0
  {
    hide Always, Ordered, CalmInv, StampInv, Weights, Total;
    WeightsAreNat(c, g, |g.ctls|);
  }
}
