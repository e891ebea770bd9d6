/** Send order. Every message carries the number of the step that wrote it, so
    the messages of one wire, and the chunks of one flow, are ordered by age. */
module Stamps {
  import opened Data
  import opened RoundRobin
  import opened Protocol
  import opened Stream
  import opened StreamInvariant
  import opened Mux
  import opened MuxInvariant
  import opened OneEnd

  predicate WireSorted(w: Wire, clock: nat) {
    && (forall i, k :: 0 <= i < k < |w| ==> w[i].Moment() < w[k].Moment())
    && (forall i :: 0 <= i < |w| ==> w[i].Moment() < clock)
  }

  predicate DealtSorted(dealt: seq<Item>, clock: nat) {
    && (forall i, k :: 0 <= i < k < |dealt| ==> dealt[i].at < dealt[k].at)
    && (forall i :: 0 <= i < |dealt| ==> dealt[i].at < clock)
  }

  /** Set-up messages of a stream are older than all its data. */
  predicate Older(w: Wire, s: nat, dealt: seq<Item>) {
    forall i, k :: 0 <= i < |w| && 0 <= k < |dealt| && w[i].id.stream == s && !w[i].Carry? ==>
      w[i].Moment() < dealt[k].at
  }

  ghost predicate PlaneStamps(p: Plane, clock: nat) {
    && (forall j :: 0 <= j < |p.wires| ==> WireSorted(p.wires[j], clock))
    && (forall s :: 0 <= s < |p.txs| ==> DealtSorted(p.txs[s].dealt, clock))
    && (forall j, s :: 0 <= j < |p.wires| && 0 <= s < |p.txs| ==> Older(p.wires[j], s, p.txs[s].dealt))
  }

  ghost predicate StampInv(g: System) {
    PlaneStamps(g.up, g.clock) && PlaneStamps(g.down, g.clock)
  }

  lemma Later(p: Plane, clock: nat)
    requires PlaneStamps(p, clock)
    ensures PlaneStamps(p, clock + 1)
  {
    forall j | 0 <= j < |p.wires| ensures WireSorted(p.wires[j], clock + 1) {
      assert WireSorted(p.wires[j], clock);
    }
    forall s | 0 <= s < |p.txs| ensures DealtSorted(p.txs[s].dealt, clock + 1) {
      assert DealtSorted(p.txs[s].dealt, clock);
    }
  }

  /** A reader takes a message off. */
  lemma DropStamps(p: Plane, clock: nat, lane: nat)
    requires PlaneStamps(p, clock) && Head(p.wires, lane).Some?
    ensures PlaneStamps(p.(wires := Dropped(p.wires, lane)), clock)
  {
    var wires' := Dropped(p.wires, lane);
    assert WireSorted(p.wires[lane], clock);
    forall j, s | 0 <= j < |wires'| && 0 <= s < |p.txs| ensures Older(wires'[j], s, p.txs[s].dealt) {
      assert Older(p.wires[j], s, p.txs[s].dealt);
    }
  }

  /** A message is written now; if it is no data message its stream has sent no
      data yet. */
  lemma PostStamps(p: Plane, clock: nat, lane: nat, m: Msg)
    requires PlaneStamps(p, clock) && m.Moment() == clock
    requires !m.Carry? && m.id.stream < |p.txs| ==> p.txs[m.id.stream].dealt == []
    ensures PlaneStamps(p.(wires := Posted(p.wires, lane, m)), clock + 1)
  {
    var wires' := Posted(p.wires, lane, m);
    Later(p, clock);
    forall j | 0 <= j < |wires'| ensures WireSorted(wires'[j], clock + 1) {
      assert WireSorted(p.wires[j], clock);
    }
    forall j, s | 0 <= j < |wires'| && 0 <= s < |p.txs| ensures Older(wires'[j], s, p.txs[s].dealt) {
      assert Older(p.wires[j], s, p.txs[s].dealt);
    }
  }

  /** A chunk is dealt now. */
  lemma DealStamps(p: Plane, clock: nat, s: nat, tx: Tx, x: Item)
    requires PlaneStamps(p, clock) && s < |p.txs| && x.at == clock && tx.dealt == p.txs[s].dealt + [x]
    ensures PlaneStamps(p.(txs := p.txs[s := tx]), clock + 1)
  {
    Later(p, clock);
    var txs' := p.txs[s := tx];
    assert DealtSorted(p.txs[s].dealt, clock);
    forall j, o | 0 <= j < |p.wires| && 0 <= o < |txs'| ensures Older(p.wires[j], o, txs'[o].dealt) {
      assert Older(p.wires[j], o, p.txs[o].dealt) && WireSorted(p.wires[j], clock);
    }
  }

  lemma SameStamps(p: Plane, p': Plane, clock: nat)
    requires PlaneStamps(p, clock) && p'.wires == p.wires && |p'.txs| == |p.txs|
    requires forall s :: 0 <= s < |p.txs| ==> p'.txs[s].dealt == p.txs[s].dealt
    ensures PlaneStamps(p', clock)
  {
    forall j, s | 0 <= j < |p'.wires| && 0 <= s < |p'.txs| ensures Older(p'.wires[j], s, p'.txs[s].dealt) {
      assert Older(p.wires[j], s, p.txs[s].dealt);
    }
    forall s | 0 <= s < |p'.txs| ensures DealtSorted(p'.txs[s].dealt, clock) {
      assert DealtSorted(p.txs[s].dealt, clock);
    }
  }

  // ---- every step --------------------------------------------------------

  lemma NoDataBeforeEst(c: Config, s: nat, v: Stream)
    requires Always(c, s, v) && !v.b.ctl.est
    ensures v.b.up.t.tx.dealt == []
  {
    hide UpWireInv, DownWireInv, UpLinksInv, DownLinksInv, DownQueueInv, TxShape, RxInv, RxShape, SourceInv, EofLast, ObjectInv, Lane;
  }

  /** A loop of this direction, the first or a further one, writes a chunk. */
  predicate Deals(a: Act, d: Dir) {
    (a.Tx_? || a.Again?) && a.dir == d && a.tx.SendPut?
  }

  ghost predicate DealtNow(tx: Tx, tx': Tx, clock: nat) {
    exists x: Item :: x.at == clock && tx'.dealt == tx.dealt + [x]
  }

  lemma LoopDeals(c: Config, t: TxEnd, a: TxAct, now: nat)
    requires TxEnabled(c, t, a)
    ensures if a.SendPut? then DealtNow(t.tx, TxStep(c, t, a, now).tx, now) else TxStep(c, t, a, now).tx.dealt == t.tx.dealt
  {
    if a.SendPut? {
      assert Item(t.tx.sender.chunk, now).at == now;
    }
  }

  lemma AgainDeals(c: Config, t: TxEnd, k: nat, a: TxAct, now: nat)
    requires AgainEnabled(c, t, k, a)
    ensures if a.SendPut? then DealtNow(t.tx, AgainStep(c, t, k, a, now).tx, now)
            else AgainStep(c, t, k, a, now).tx.dealt == t.tx.dealt
  {
    hide TxEnabled, TxStep;
    LoopDeals(c, Focus(t, k), a, now);
  }

  /** How the dealt chunks of the acting stream change. */
  lemma DealtAfter(c: Config, g: System, g': System, s: nat, a: Act, d: Dir)
    requires SystemAlways(c, g) && CanFire(c, g, On(s, a)) && g' == Fire(c, g, On(s, a))
    ensures WellFormed(c, g') && |g'.ctls| == |g.ctls| && s < |g.ctls|
    ensures var tx, tx' := g.At(d).txs[s], g'.At(d).txs[s];
      if Deals(a, d) then DealtNow(tx, tx', g.clock) else tx'.dealt == tx.dealt
  {
    hide Always, Fire, CanFire, Step, Enabled, TxStep, AgainStep, AgainEnabled, RxStep, TxEnabled, RxEnabled, DealtNow;
    Projection(c, g, g', s, a);
    StreamExists(c, g, s, a);
    var v := View(c, g, s);
    StepEnds(c, s, v, a, g.clock, d);
    LoopEnabled(c, s, v, a);
    if a.Tx_? && a.dir == d {
      LoopDeals(c, v.b.At(d).t, a.tx, g.clock);
    } else if a.Again? && a.dir == d {
      AgainDeals(c, v.b.At(d).t, a.k, a.tx, g.clock);
    }
  }

  /** What is written, and that it carries the present moment. */
  lemma PostIsNow(c: Config, g: System, s: nat, a: Act)
    requires SystemAlways(c, g) && CanFire(c, g, On(s, a)) && !a.Receive? && !a.Discard?
    ensures CoreEnabled(c, s, BothOf(g, s), a, None)
    ensures match CorePost(c, s, BothOf(g, s), a, g.clock)
      case None => !Deals(a, Up) && !Deals(a, Down)
      case Some((e, lane, m)) =>
        && m.Moment() == g.clock && m.id.stream == s
        && (forall d: Dir :: Deals(a, d) <==> m.Carry? && d == e)
        && (!m.Carry? ==> e.Up? && !g.ctls[s].est)
  {
    hide Always, TxEnabled, AgainEnabled, RxEnabled;
    PostIsOwn(c, g, s, a);
    StreamExists(c, g, s, a);
    SayBeforeEst(c, s, View(c, g, s));
  }

  lemma SayBeforeEst(c: Config, s: nat, v: Stream)
    requires Always(c, s, v)
    ensures v.b.ctl.est ==> v.b.ctl.added == c.n
  {
    hide UpWireInv, DownWireInv, UpLinksInv, DownLinksInv, UpQueueInv, DownQueueInv, TxInv, TxShape, RxInv, RxShape;
  }

  /** Only the acting stream's sender state changes, and how. */
  ghost predicate TxsAfter(p: Plane, p': Plane, s: nat, dealing: bool, clock: nat) {
    && |p'.txs| == |p.txs| && s < |p.txs|
    && (forall o :: 0 <= o < |p.txs| && o != s ==> p'.txs[o] == p.txs[o])
    && (dealing ==> DealtNow(p.txs[s], p'.txs[s], clock))
    && (!dealing ==> p'.txs[s].dealt == p.txs[s].dealt)
  }

  lemma TxsChange(c: Config, g: System, g': System, s: nat, a: Act, d: Dir)
    requires SystemAlways(c, g) && CanFire(c, g, On(s, a)) && g' == Fire(c, g, On(s, a))
    ensures TxsAfter(g.At(d), g'.At(d), s, Deals(a, d), g.clock)
    ensures g'.At(d).wires == WiresAfter(c, g, s, a, d)
  {
    hide Always, Fire, CanFire, Core, WiresAfter, DealtNow;
    DealtAfter(c, g, g', s, a, d);
    FireParts(c, g, s, a);
  }

  lemma PlaneAfter(c: Config, g: System, g': System, s: nat, a: Act, d: Dir)
    requires SystemAlways(c, g) && CanFire(c, g, On(s, a)) && g' == Fire(c, g, On(s, a)) && StampInv(g)
    ensures PlaneStamps(g'.At(d), g.clock + 1)
  {
    hide Always, Fire, Core, CoreEnabled, CorePost, PlaneStamps, View, DealtNow;
    var p, p' := g.At(d), g'.At(d);
    TxsChange(c, g, g', s, a, d);
    if a.Receive? || a.Discard? {
      HeadIsOwn(c, g, s, a);
      ReceiveStamps(p, p', g.clock, if a.dir == d then Some(a.lane) else None);
    } else {
      PostIsNow(c, g, s, a);
      match CorePost(c, s, BothOf(g, s), a, g.clock)
      case None =>
        ReceiveStamps(p, p', g.clock, None);
      case Some((e, lane, m)) =>
        if e != d {
          ReceiveStamps(p, p', g.clock, None);
        } else if m.Carry? {
          CarryStamps(p, p', g.clock, lane, m, s);
        } else {
          BeforeData(c, g, s);
          PostStamps(p, g.clock, lane, m);
          SameStamps(p.(wires := Posted(p.wires, lane, m)), p', g.clock + 1);
        }
    }
  }

  lemma BeforeData(c: Config, g: System, s: nat)
    requires SystemAlways(c, g) && s < |g.ctls| && !g.ctls[s].est
    ensures g.up.txs[s].dealt == []
  {
    hide Always;
    NoDataBeforeEst(c, s, View(c, g, s));
  }

  lemma ReceiveStamps(p: Plane, p': Plane, clock: nat, lane: Option<nat>)
    requires PlaneStamps(p, clock) && |p'.txs| == |p.txs|
    requires forall s :: 0 <= s < |p.txs| ==> p'.txs[s].dealt == p.txs[s].dealt
    requires lane.None? ==> p'.wires == p.wires
    requires lane.Some? ==> Head(p.wires, lane.value).Some? && p'.wires == Dropped(p.wires, lane.value)
    ensures PlaneStamps(p', clock + 1)
  {
    hide PlaneStamps;
    if lane.Some? {
      DropStamps(p, clock, lane.value);
      SameStamps(p.(wires := p'.wires), p', clock);
    } else {
      SameStamps(p, p', clock);
    }
    Later(p', clock);
  }

  lemma CarryStamps(p: Plane, p': Plane, clock: nat, lane: nat, m: Msg, s: nat)
    requires PlaneStamps(p, clock) && |p'.txs| == |p.txs| && s < |p.txs|
    requires m.Carry? && m.Moment() == clock && p'.wires == Posted(p.wires, lane, m)
    requires DealtNow(p.txs[s], p'.txs[s], clock)
    requires forall o :: 0 <= o < |p.txs| && o != s ==> p'.txs[o] == p.txs[o]
    ensures PlaneStamps(p', clock + 1)
  {
    var x: Item :| x.at == clock && p'.txs[s].dealt == p.txs[s].dealt + [x];
    DealStamps(p, clock, s, p'.txs[s], x);
    PostStamps(p, clock, lane, m);
    var q1, q2 := p.(txs := p.txs[s := p'.txs[s]]), p.(wires := Posted(p.wires, lane, m));
    assert p'.txs == q1.txs;
    assert p'.wires == q2.wires;
    forall j, o | 0 <= j < |p'.wires| && 0 <= o < |p'.txs| ensures Older(p'.wires[j], o, p'.txs[o].dealt) {
      assert Older(p.wires[j], o, q1.txs[o].dealt);
    }
  }

  lemma StampsKept(c: Config, g: System, e: Event)
    requires SystemAlways(c, g) && CanFire(c, g, e) && StampInv(g)
    ensures StampInv(Fire(c, g, e))
  {
    hide Always, PlaneStamps;
    if e.On? {
      hide Fire, CanFire;
      PlaneAfter(c, g, Fire(c, g, e), e.s, e.a, Up);
      PlaneAfter(c, g, Fire(c, g, e), e.s, e.a, Down);
      ClockTicks(c, g, e);
    } else {
      OpenStamps(g.up, g.clock);
      OpenStamps(g.down, g.clock);
    }
  }

  lemma OpenStamps(p: Plane, clock: nat)
    requires PlaneStamps(p, clock)
    ensures PlaneStamps(p.(txs := p.txs + [NEW_TX], rxs := p.rxs + [NEW_RX]), clock)
  {
  }

  lemma ClockTicks(c: Config, g: System, e: Event)
    requires WellFormed(c, g) && CanFire(c, g, e) && e.On?
    ensures Fire(c, g, e).clock == g.clock + 1
  {
    hide Core, CorePost;
  }
}
