/** Runs without failures and without teardown: dials succeed, every channel and
    connection accepts, nothing is closed. */
module Calm {
  import opened Data
  import opened RoundRobin
  import opened Protocol
  import opened Stream
  import opened StreamInvariant
  import opened Mux
  import opened OneEnd
  import opened Guarantees
  import Q = QueueHubModel

  predicate CalmAct(a: Act) {
    match a
    case Connect(ok) => ok
    case Tx_(_, x) => !x.SrcFail? && !x.SendFail? && !x.CloseQueue?
    case Rx_(_, x) => !x.MergeFail? && !x.CloseLinks?
    case Discard(_, _) => false
    case Again(_, _, _) => false
    case _ => true
  }

  /** Everything but new input: opening a stream, and reading from a connection. */
  predicate Internal(a: Act) {
    CalmAct(a) && !(a.Tx_? && (a.tx.SrcRead? || a.tx.SrcEof?))
  }

  predicate CalmEvent(e: Event) { e.On? ==> CalmAct(e.a) }

  predicate InternalEvent(e: Event) { e.On? && Internal(e.a) }

  predicate CalmTx(t: TxEnd) {
    && t.tx.gone.None?
    && (t.tx.source.Stopped? ==> !NoEof(t.tx.line))
    && (t.tx.sender.Ended? ==> t.tx.dealt != [] && t.tx.dealt[|t.tx.dealt| - 1].chunk.eof)
    && Q.Ensured(t.queue).open
    && (Q.Ensured(t.queue).status == StaDone ==> t.tx.sender.Ended?)
  }

  /** In a calm run loops end only at the end mark. */
  predicate CalmRx(rx: Rx) {
    !rx.closing && Flowing(rx)
  }

  /** The merge goes on only while it has met no end mark. */
  predicate Unended(dealt: seq<Item>, rx: Rx) {
    && rx.popped <= |dealt|
    && (!rx.merger.Over? ==>
          forall k :: 0 <= k < (if rx.merger.Write? then rx.popped - 1 else rx.popped) ==> !dealt[k].chunk.eof)
  }

  ghost predicate CalmInv(v: Stream) {
    && CalmTx(v.b.up.t) && CalmTx(v.b.down.t)
    && CalmRx(v.b.up.r.rx) && CalmRx(v.b.down.r.rx)
    && Unended(v.b.up.t.tx.dealt, v.b.up.r.rx) && Unended(v.b.down.t.tx.dealt, v.b.down.r.rx)
    && !v.b.ctl.dial.Failed?
  }

  lemma CalmTxStep(c: Config, s: nat, t: TxEnd, a: TxAct, now: nat)
    requires c.Valid() && TxInv(c.n, s, t) && TxEnabled(c, t, a) && CalmTx(t)
    requires !a.SrcFail? && !a.SendFail? && !a.CloseQueue?
    ensures CalmTx(TxStep(c, t, a, now))
  {
    hide Bytes, Lane, Equipped, EofLast, Q.Ready;
    if a.SrcPush? {
      var line, x := t.tx.line, t.tx.source.chunk;
      assert (line + [x])[|line|] == x;
    }
  }

  lemma CalmRxStep(n: nat, s: nat, r: RxEnd, a: RxAct)
    requires RxEnabled(r, a) && CalmRx(r.rx) && !a.MergeFail? && !a.CloseLinks?
    requires r.rx.merger.Find? ==> r.rx.merger.j < |r.rx.order| && r.rx.order[r.rx.merger.j] in r.links
    ensures CalmRx(RxStep(r, Master(s), a).rx)
  {
  }

  lemma UnendedStep(n: nat, s: nat, dealt: seq<Item>, r: RxEnd, a: RxAct, wires: seq<Wire>)
    requires n >= 1 && |wires| == n && RxInv(n, s, dealt, r, wires) && CalmRx(r.rx)
    requires RxEnabled(r, a) && Unended(dealt, r.rx) && !a.CloseLinks?
    requires a.MergeRead? ==> r.rx.popped < |dealt|
    ensures Unended(dealt, RxStep(r, Master(s), a).rx)
  {
    hide Lanes, Lane, Stripe, Sent, ShutInv, RemovedInv, NoneDone;
  }

  lemma ReadIsDealt(n: nat, s: nat, dealt: seq<Item>, r: RxEnd, wires: seq<Wire>)
    requires n >= 1 && |wires| == n && RxInv(n, s, dealt, r, wires) && CalmRx(r.rx) && RxEnabled(r, MergeRead)
    ensures r.rx.popped < |dealt|
  {
    hide Stripe, Sent, ShutInv, RemovedInv, NoneDone;
    var p, j := r.rx.popped, r.rx.merger.j;
    assert LaneInv(n, s, dealt, p, r.links, wires[j], j);
    if p == |dealt| {
      assert dealt[p..] == [];
      assert Stripe(dealt[p..], p, j, n) == [] by { NoShare(dealt[p..], p, j, n); }
    }
  }

  lemma NoShare(xs: seq<Item>, off: nat, j: nat, n: nat)
    requires n >= 1 && xs == []
    ensures Stripe(xs, off, j, n) == []
  {
  }

  lemma DialStep(c: Config, s: nat, v: Stream, a: Act, now: nat)
    requires Enabled(c, s, v, a) && CalmAct(a) && !v.b.ctl.dial.Failed?
    ensures !Step(c, s, v, a, now).b.ctl.dial.Failed?
  {
    hide Core, CoreEnabled, Step;
    StepIsCore(c, s, v, a, now);
    DialAfter(c, s, v.b, a, now, HeadFor(v, a));
  }

  lemma CalmEndStep(c: Config, s: nat, v: Stream, a: Act, now: nat, d: Dir)
    requires Inv(c, s, v) && CalmInv(v) && Enabled(c, s, v, a) && CalmAct(a)
    ensures CalmTx(Step(c, s, v, a, now).b.At(d).t) && CalmRx(Step(c, s, v, a, now).b.At(d).r.rx)
  {
    hide Always, Ordered, Step, TxStep, RxStep, TxEnabled, RxEnabled, TxInv, RxInv, Core, CoreEnabled;
    var e := v.b.At(d);
    OneLoop(c, s, v, a, d);
    StepEnds(c, s, v, a, now, d);
    EndFacts(c, s, v, d);
    MergerLookup(c, s, v, d);
    WasEnabled(c, s, v, a);
    if a.Tx_? && a.dir == d {
      CalmTxStep(c, s, e.t, a.tx, now);
    } else if a.Rx_? && a.dir == d {
      CalmRxStep(c.n, s, e.r, a.rx);
    }
  }

  lemma UnendedEnd(c: Config, s: nat, v: Stream, a: Act, now: nat, d: Dir)
    requires Inv(c, s, v) && CalmInv(v) && Enabled(c, s, v, a) && CalmAct(a)
    ensures var e' := Step(c, s, v, a, now).b.At(d); Unended(e'.t.tx.dealt, e'.r.rx)
  {
    hide Always, Ordered, Step, TxStep, RxStep, TxEnabled, RxEnabled, TxInv, RxInv, Core, CoreEnabled, CalmTx, CalmRx;
    var e := v.b.At(d);
    OneLoop(c, s, v, a, d);
    StepEnds(c, s, v, a, now, d);
    EndFacts(c, s, v, d);
    WasEnabled(c, s, v, a);
    if a.Tx_? && a.dir == d {
      DealtGrows(c, e.t, a.tx, now);
    } else if a.Rx_? && a.dir == d {
      if a.rx.MergeRead? { ReadIsDealt(c.n, s, e.t.tx.dealt, e.r, v.Wires(d)); }
      UnendedStep(c.n, s, e.t.tx.dealt, e.r, a.rx, v.Wires(d));
    }
  }

  lemma DealtGrows(c: Config, t: TxEnd, a: TxAct, now: nat)
    requires TxEnabled(c, t, a)
    ensures t.tx.dealt <= TxStep(c, t, a, now).tx.dealt
  {
  }

  lemma CalmStep(c: Config, s: nat, v: Stream, a: Act, now: nat)
    requires Inv(c, s, v) && CalmInv(v) && Enabled(c, s, v, a) && CalmAct(a)
    ensures CalmInv(Step(c, s, v, a, now))
  {
    hide Inv, Step, Enabled, CalmTx, CalmRx, Unended;
    UnendedEnd(c, s, v, a, now, Up);
    UnendedEnd(c, s, v, a, now, Down);
    CalmEndStep(c, s, v, a, now, Up);
    CalmEndStep(c, s, v, a, now, Down);
    DialStep(c, s, v, a, now);
  }
}
