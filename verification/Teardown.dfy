/** After a close: how much the two loops may still take from their channels. */
module Teardown {
  import opened Data
  import opened Protocol
  import opened Stream
  import opened StreamInvariant
  import opened Mux
  import opened MuxInvariant
  import opened OneEnd
  import opened Guarantees
  import Q = QueueHubModel
  import L = LinkHubModel

  /** How often an event of one stream occurs in a run. */
  function Count(evs: seq<Event>, s: nat, a: Act): nat {
    if evs == [] then 0 else (if evs[0] == On(s, a) then 1 else 0) + Count(evs[1..], s, a)
  }

  /** A queue that comes back into the hub after its close can never be launched. */
  lemma GoneFacts(c: Config, s: nat, v: Stream)
    requires Always(c, s, v)
    ensures var t, x := v.b.up.t, v.b.ctl;
      t.tx.gone.Some? ==> t.queue.None? && x.added == x.said == c.n
    ensures var t := v.b.down.t;
      t.tx.gone.Some? ==> Q.Ensured(t.queue).sorted == [] && !Q.Ready(t.queue)
  {
    hide UpWireInv, DownWireInv, UpLinksInv, DownLinksInv, TxInv, RxInv, RxShape, WritersAre;
  }

  /** Once the queue has left the hub, no step launches another Send on it. */
  lemma NoLateLaunch(c: Config, s: nat, v: Stream, a: Act, now: nat, d: Dir)
    requires Always(c, s, v) && Enabled(c, s, v, a) && v.b.At(d).t.tx.gone.Some? && v.b.At(d).t.tx.extra == []
    requires !(a.Tx_? && a.dir == d)
    ensures Step(c, s, v, a, now).b.At(d).t.tx.pending == v.b.At(d).t.tx.pending
  {
    hide Always, Step, CorePost, TxStep, TxEnabled, AgainStep, RxStep, RxEnabled, TryLaunchLinks, Accept;
    hide L.AddLink, L.SortLink, L.ConnectLink;
    GoneFacts(c, s, v);
    WasEnabled(c, s, v, a);
    StepIsCore(c, s, v, a, now);
    if a.Receive? && HeadFor(v, a).value.Hi? {
      var w := Q.WithWriter(v.b.down.t.queue, HeadFor(v, a).value.id, a.lane).writers;
      assert HeadFor(v, a).value.id in w.Keys && |w| > 0;
    }
  }

  // ---- queue.Send --------------------------------------------------------

  /** How many steps the first loop of a direction takes in a run. */
  function LoopSteps(evs: seq<Event>, s: nat, d: Dir): nat {
    if evs == [] then 0
    else
      var e := evs[0];
      (if e.On? && e.s == s && e.a.Tx_? && e.a.dir == d && LoopAct(e.a.tx) then 1 else 0) + LoopSteps(evs[1..], s, d)
  }

  /** Receives left before the next top-of-loop check. */
  function TakesLeft(n: nat, sender: Sender): nat {
    match sender
    case Take(i) => if i < n then n - i else 0
    case Put(i, _) => if i + 1 < n then n - i - 1 else 0
    case _ => 0
  }

  /** Steps of any kind left until that check has ended the loop. */
  function StepsLeft(n: nat, sender: Sender): nat {
    match sender
    case NotBegun => 0
    case Ended => 0
    case Check => 1
    case Take(_) => 2 * TakesLeft(n, sender) + 1
    case Put(_, _) => 2 * TakesLeft(n, sender) + 2
  }

  /** The step a loop takes next unless it fails. */
  function NextAct(loop: Sender): TxAct {
    if loop.Put? then SendPut else if loop.Check? then SendCheck else SendTake
  }

  /** Close ran while Send was in its only loop, and no later Send can start another. */
  ghost predicate ClosedWhileSending(tx: Tx) {
    && Begun(tx) && tx.extra == [] && tx.gone.Some? && !tx.gone.value.open
    && (tx.gone.value.status == StaClose || tx.sender.Ended?)
    && (tx.pending > 0 ==> tx.gone.value.status == StaSend || tx.gone.value.status == StaDone)
  }

  lemma TakesStep(c: Config, s: nat, t: TxEnd, a: TxAct, now: nat)
    requires c.Valid() && TxShape(c.n, s, t) && TxEnabled(c, t, a) && ClosedWhileSending(t.tx)
    ensures var t' := TxStep(c, t, a, now);
      && ClosedWhileSending(t'.tx)
      && TakesLeft(c.n, t'.tx.sender) + (if a.SendTake? then 1 else 0) <= TakesLeft(c.n, t.tx.sender)
      && StepsLeft(c.n, t'.tx.sender) + (if LoopAct(a) then 1 else 0) <= StepsLeft(c.n, t.tx.sender)
  {
    hide Q.Ready;
  }

  lemma TakesOf(c: Config, s: nat, v: Stream, a: Act, now: nat, d: Dir)
    requires Always(c, s, v) && Enabled(c, s, v, a) && ClosedWhileSending(v.b.At(d).t.tx)
    ensures var tx, tx' := v.b.At(d).t.tx, Step(c, s, v, a, now).b.At(d).t.tx;
      && ClosedWhileSending(tx')
      && TakesLeft(c.n, tx'.sender) + (if a == Tx_(d, SendTake) then 1 else 0) <= TakesLeft(c.n, tx.sender)
      && StepsLeft(c.n, tx'.sender) + (if a.Tx_? && a.dir == d && LoopAct(a.tx) then 1 else 0) <= StepsLeft(c.n, tx.sender)
  {
    hide Always, Step, Enabled, TxStep, TxEnabled, AgainStep, AgainEnabled, RxStep, RxEnabled, TxShape;
    StepEnds(c, s, v, a, now, d);
    ShapeFacts(c, s, v, d);
    WasEnabled(c, s, v, a);
    if a.Tx_? && a.dir == d {
      TakesStep(c, s, v.b.At(d).t, a.tx, now);
    } else {
      NoLateLaunch(c, s, v, a, now, d);
    }
  }

  /** Bounded drain: after a close that found Send in its loop, however the run
      goes on, Send receives at most |sorted| more chunks and takes at most twice as
      many steps and one; and until it has ended it can always take the next. */
  lemma {:induction false} SenderDrains(c: Config, g: System, evs: seq<Event>, g': System, s: nat, d: Dir)
    requires SystemAlways(c, g) && Leads(c, g, evs, g')
    requires s < |g.ctls| && ClosedWhileSending(g.At(d).txs[s])
    ensures Count(evs, s, Tx_(d, SendTake)) <= TakesLeft(c.n, g.At(d).txs[s].sender) <= c.n
    ensures LoopSteps(evs, s, d) <= StepsLeft(c.n, g.At(d).txs[s].sender) <= 2 * c.n + 1
    ensures WellFormed(c, g') && s < |g'.ctls|
    ensures var loop := g'.At(d).txs[s].sender; loop.Ended? || CanFire(c, g', On(s, Tx_(d, NextAct(loop))))
    decreases |evs|
  {
    hide Always, Fire, CanFire, Step, Enabled, ClosedWhileSending, TakesLeft, StepsLeft, LoopShape, NextAct;
    LoopInside(c, g, s, d);
    if evs != [] {
      var g1, e := Fire(c, g, evs[0]), evs[0];
      EventView(c, g, e, s);
      if e.On? && e.s == s {
        TakesOf(c, s, View(c, g, s), e.a, g.clock, d);
      }
      SenderDrains(c, g1, evs[1..], g', s, d);
    }
  }

  /** The loop is inside its order, and a receive from the closed channel never waits. */
  lemma LoopInside(c: Config, g: System, s: nat, d: Dir)
    requires SystemAlways(c, g) && s < |g.ctls| && ClosedWhileSending(g.At(d).txs[s])
    ensures var loop := g.At(d).txs[s].sender;
      && TakesLeft(c.n, loop) <= c.n && StepsLeft(c.n, loop) <= 2 * c.n + 1
      && (loop.Ended? || CanFire(c, g, On(s, Tx_(d, NextAct(loop)))))
  {
    hide Always, TxShape, RxShape;
    ShapeFacts(c, s, View(c, g, s), d);
    NextEnabled(c, s, View(c, g, s).b.At(d).t);
  }

  lemma NextEnabled(c: Config, s: nat, t: TxEnd)
    requires c.Valid() && TxShape(c.n, s, t) && ClosedWhileSending(t.tx)
    ensures LoopShape(c.n, t.tx.sender)
    ensures t.tx.sender.Ended? || TxEnabled(c, t, NextAct(t.tx.sender))
  {
    hide Q.Ready;
    assert t.tx.sender.Put? ==> Order(s, c.n)[t.tx.sender.i] == Id(s, t.tx.sender.i);
  }

  // ---- link.Send ---------------------------------------------------------

  /** How many steps the merge of a direction takes in a run. */
  function MergeSteps(evs: seq<Event>, s: nat, d: Dir): nat {
    if evs == [] then 0
    else
      var e := evs[0];
      (if e.On? && e.s == s && e.a.Rx_? && e.a.dir == d then 1 else 0) + MergeSteps(evs[1..], s, d)
  }

  function ReadsLeft(m: Merger): nat {
    if m.Read? then 1 else 0
  }

  /** Steps of any kind left once the links are removed. A merge that had begun before
      the removal sees it at its next top of loop; one that begins after it has lost
      that mark, and ends at its first lookup. */
  function MergeLeft(rx: Rx): nat {
    match rx.merger
    case Dormant => 3
    case Launched => 3
    case Round => if rx.closing then 1 else 2
    case Find(_) => 1
    case Read(_, _) => 3
    case Write(_, _) => 2
    case Over => 0
  }

  predicate Fails(a: Act, d: Dir) {
    a.Rx_? && a.dir == d && a.rx.MergeFail?
  }

  /** The connection, or the wait of a receive, fails during the run. */
  ghost predicate MergeFails(evs: seq<Event>, s: nat, d: Dir) {
    exists e <- evs :: e.On? && e.s == s && Fails(e.a, d)
  }

  lemma ReadsStep(n: nat, s: nat, r: RxEnd, a: RxAct)
    requires n >= 1 && RxShape(n, s, r) && RxEnabled(r, a) && r.rx.removed
    ensures var r' := RxStep(r, Master(s), a);
      && r'.rx.removed && ReadsLeft(r'.rx.merger) + (if a.MergeRead? then 1 else 0) <= ReadsLeft(r.rx.merger)
      && MergeLeft(r'.rx) + 1 <= MergeLeft(r.rx) && (r.rx.shut ==> r'.rx.shut)
      && (!a.MergeFail? && r'.rx.shut == r.rx.shut ==> MergeLeft(r'.rx) + 1 == MergeLeft(r.rx))
  {
  }

  /** Between two states of a merge whose links are removed: how many receives and steps
      it took, and that it took all the steps it had to unless it failed or met the end
      mark. */
  predicate Drained(taken: nat, steps: nat, failed: bool, rx: Rx, rx': Rx) {
    && rx'.removed && (rx.shut ==> rx'.shut)
    && taken + ReadsLeft(rx'.merger) <= ReadsLeft(rx.merger) && steps + MergeLeft(rx') <= MergeLeft(rx)
    && (!failed && rx'.shut == rx.shut ==> steps + MergeLeft(rx') == MergeLeft(rx))
  }

  lemma DrainedJoin(r1: nat, s1: nat, f1: bool, r2: nat, s2: nat, f2: bool, a: Rx, b: Rx, c: Rx)
    requires Drained(r1, s1, f1, a, b) && Drained(r2, s2, f2, b, c)
    ensures Drained(r1 + r2, s1 + s2, f1 || f2, a, c)
  {
    hide MergeLeft;
  }

  function OneIf(b: bool): nat { if b then 1 else 0 }

  lemma ReadsOf(c: Config, s: nat, v: Stream, a: Act, now: nat, d: Dir)
    requires Always(c, s, v) && Enabled(c, s, v, a) && v.b.At(d).r.rx.removed
    ensures Drained(OneIf(a == Rx_(d, MergeRead)), OneIf(a.Rx_? && a.dir == d), Fails(a, d), v.b.At(d).r.rx, Step(c, s, v, a, now).b.At(d).r.rx)
  {
    hide Always, Step, Enabled, TxStep, TxEnabled, AgainStep, AgainEnabled, RxStep, RxEnabled, RxShape, TxShape;
    StepEnds(c, s, v, a, now, d);
    ShapeFacts(c, s, v, d);
    if a.Rx_? && a.dir == d {
      WasEnabled(c, s, v, a);
      ReadsStep(c.n, s, v.b.At(d).r, a.rx);
    }
  }

  lemma EventDrains(c: Config, g: System, e: Event, s: nat, d: Dir)
    requires SystemAlways(c, g) && CanFire(c, g, e) && s < |g.ctls| && g.At(d).rxs[s].removed
    ensures var g1, mine := Fire(c, g, e), e.On? && e.s == s;
      && SystemAlways(c, g1) && s < |g1.ctls|
      && Drained(OneIf(e == On(s, Rx_(d, MergeRead))), OneIf(mine && e.a.Rx_? && e.a.dir == d), mine && Fails(e.a, d),
                 g.At(d).rxs[s], g1.At(d).rxs[s])
  {
    hide Always, Fire, CanFire, Step, Enabled;
    EventView(c, g, e, s);
    if e.On? && e.s == s {
      hide Drained;
      ReadsOf(c, s, View(c, g, s), e.a, g.clock, d);
    }
  }

  lemma {:induction false} LeadsDrained(c: Config, g: System, evs: seq<Event>, g': System, s: nat, d: Dir)
    requires SystemAlways(c, g) && Leads(c, g, evs, g') && s < |g.ctls| && g.At(d).rxs[s].removed
    ensures SystemAlways(c, g') && s < |g'.ctls|
    ensures Drained(Count(evs, s, Rx_(d, MergeRead)), MergeSteps(evs, s, d), MergeFails(evs, s, d), g.At(d).rxs[s], g'.At(d).rxs[s])
    decreases |evs|
  {
    hide Always, Fire, CanFire, Fails;
    if evs != [] {
      var e, rest := evs[0], evs[1..];
      var g1, mine := Fire(c, g, e), e.On? && e.s == s;
      assert evs == [e] + rest;
      EventDrains(c, g, e, s, d);
      LeadsDrained(c, g1, rest, g', s, d);
      hide Drained;
      DrainedJoin(OneIf(e == On(s, Rx_(d, MergeRead))), OneIf(mine && e.a.Rx_? && e.a.dir == d), mine && Fails(e.a, d),
                  Count(rest, s, Rx_(d, MergeRead)), MergeSteps(rest, s, d), MergeFails(rest, s, d),
                  g.At(d).rxs[s], g1.At(d).rxs[s], g'.At(d).rxs[s]);
    }
  }

  /** The step a merge takes next unless it fails. */
  function NextMerge(m: Merger): RxAct {
    match m
    case Launched => MergeBegin
    case Round => MergeRound
    case Find(_) => MergeFind
    case Read(_, _) => MergeRead
    case _ => MergeWrite
  }

  /** Bounded drain: once the group is removed, however the run goes on, link.Send
      receives at most one more chunk and takes at most three more steps, exactly as many
      as MergeLeft says unless it fails or meets the end mark; and once launched it can
      always take the next until it is over. */
  lemma MergerDrains(c: Config, g: System, evs: seq<Event>, g': System, s: nat, d: Dir)
    requires SystemAlways(c, g) && Leads(c, g, evs, g')
    requires s < |g.ctls| && g.At(d).rxs[s].removed
    ensures Count(evs, s, Rx_(d, MergeRead)) <= ReadsLeft(g.At(d).rxs[s].merger) <= 1
    ensures WellFormed(c, g') && s < |g'.ctls|
    ensures MergeSteps(evs, s, d) + MergeLeft(g'.At(d).rxs[s]) <= MergeLeft(g.At(d).rxs[s]) <= 3
    ensures !MergeFails(evs, s, d) && g'.At(d).rxs[s].shut == g.At(d).rxs[s].shut ==>
      MergeSteps(evs, s, d) + MergeLeft(g'.At(d).rxs[s]) == MergeLeft(g.At(d).rxs[s])
    ensures var m := g'.At(d).rxs[s].merger; m.Dormant? || m.Over? || CanFire(c, g', On(s, Rx_(d, NextMerge(m))))
  {
    hide Always, Leads, CanFire, MergeLeft, NextMerge;
    LeadsDrained(c, g, evs, g', s, d);
    MergeGoesOn(c, g, s, d);
    MergeGoesOn(c, g', s, d);
  }

  lemma MergeGoesOn(c: Config, g: System, s: nat, d: Dir)
    requires SystemAlways(c, g) && s < |g.ctls| && g.At(d).rxs[s].removed
    ensures var m := g.At(d).rxs[s].merger; m.Dormant? || m.Over? || CanFire(c, g, On(s, Rx_(d, NextMerge(m))))
    ensures MergeLeft(g.At(d).rxs[s]) <= 3
  {
    hide Always, TxShape, RemovedInv;
    ShapeFacts(c, s, View(c, g, s), d);
  }

  /** A receive that is in progress when the links are removed gets what it would have got
      without the removal; only where it would have waited it gets a zero value. */
  lemma RemovalKeepsReceive(n: nat, s: nat, r: RxEnd)
    requires n >= 1 && RxShape(n, s, r) && r.rx.merger.Read? && RxEnabled(r, CloseLinks)
    ensures var r1 := RxStep(r, Master(s), CloseLinks);
      && RxEnabled(r1, MergeRead)
      && var m := RxStep(r1, Master(s), MergeRead).rx.merger;
         && m.Write?
         && (RxEnabled(r, MergeRead) ==> m == RxStep(r, Master(s), MergeRead).rx.merger)
         && (!RxEnabled(r, MergeRead) ==> m == Write(r.rx.merger.j, ZERO))
  {
  }
}
