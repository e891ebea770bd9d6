/** A link write timeout in a run. The client's reader waits for room in a full link; when
    the wait times out it drops the chunk and goes on, and nobody is told. From there on
    the merge writes the lanes without that chunk. */
module LinkTimeout {
  import opened Data
  import opened RoundRobin
  import opened Protocol
  import opened Stream
  import opened StreamInvariant
  import opened StreamSteps
  import opened Mux
  import opened MuxInvariant
  import opened OneEnd
  import opened Guarantees
  import opened Calm
  import opened Progress
  import LostChunk
  import Q = QueueHubModel
  import L = LinkHubModel

  /** The reader of response lane l waits for room in the link of its next chunk. */
  predicate Waits(c: Config, g: System, l: nat) {
    && Head(g.down.wires, l).Some? && g.down.wires[l][0].Carry?
    && var id := g.down.wires[l][0].id;
       id in g.down.links && g.down.links[id].status != StaDone && |g.down.links[id].buffer| >= c.cap
  }

  /** The wait times out. */
  function TimedOut(g: System, l: nat): System
    requires Head(g.down.wires, l).Some?
  {
    g.(clock := g.clock + 1, down := g.down.(wires := Dropped(g.down.wires, l)))
  }

  // ---- a stream that has lost the chunk at index k -----------------------

  /** Lane j of what was dealt, without the chunk at index k. */
  function LaneWithout(dealt: seq<Item>, k: nat, j: nat, n: nat): seq<Item>
    requires n >= 1 && k < |dealt|
  {
    Stripe(dealt[..k], 0, j, n) + Stripe(dealt[k + 1..], k + 1, j, n)
  }

  /** The one loop deals round-robin. */
  predicate SenderAt(n: nat, t: TxEnd)
    requires n >= 1
  {
    var w := |t.tx.dealt|;
    && t.tx.gone.None? && t.tx.extra == []
    && (Begun(t.tx) ==> Q.Ensured(t.queue).status == StaSend || Q.Ensured(t.queue).status == StaDone)
    && match t.tx.sender
       case NotBegun => w == 0
       case Check => Lane(w, n) == 0
       case Take(i) => i == Lane(w, n)
       case Put(i, _) => i == Lane(w, n)
       case Ended => true
  }

  /** The merge has received `got`, and has written it, or all but the last. */
  predicate MergeAt(n: nat, rx: Rx, got: seq<Item>)
    requires n >= 1
  {
    var p := |got|;
    && rx.popped == p && CalmRx(rx)
    && match rx.merger
       case Dormant => p == 0 && rx.out == []
       case Launched => p == 0 && rx.out == []
       case Round => rx.out == Sent(got, p) && Lane(p, n) == 0
       case Find(j) => rx.out == Sent(got, p) && j == Lane(p, n)
       case Read(j, _) => rx.out == Sent(got, p) && j == Lane(p, n)
       case Write(j, x) => p > 0 && x == got[p - 1].chunk && j == Lane(p - 1, n) && rx.out == Sent(got, p - 1)
       case Over => p > 0 && rx.out == Sent(got, p - 1)
  }

  /** What was received, what is buffered and what is on the wire make up the lane; the
      end of the merge leaves the rest of it unread. */
  predicate LossyLane(n: nat, s: nat, dealt: seq<Item>, k: nat, got: seq<Item>, r: RxEnd, wire: Wire, j: nat)
    requires n >= 1 && k < |dealt|
  {
    if r.rx.merger.Over? then Stripe(got, 0, j, n) <= LaneWithout(dealt, k, j, n)
    else Stripe(got, 0, j, n) + (L.Waiting(r.links, Id(s, j)) + Items(wire)) == LaneWithout(dealt, k, j, n)
  }

  predicate Lossy(n: nat, s: nat, e: Ends, wires: seq<Wire>, k: nat, got: seq<Item>)
    requires n >= 1
  {
    && |wires| == n && k < |e.t.tx.dealt| && SenderAt(n, e.t) && MergeAt(n, e.r.rx, got)
    && (!e.r.rx.merger.Over? ==> NoneDone(e.r.links))
    && forall j :: 0 <= j < n ==> LossyLane(n, s, e.t.tx.dealt, k, got, e.r, wires[j], j)
  }

  // ---- the sender --------------------------------------------------------

  lemma DealWithout(dealt: seq<Item>, x: Item, k: nat, j: nat, n: nat)
    requires n >= 1 && k < |dealt|
    ensures LaneWithout(dealt + [x], k, j, n) == LaneWithout(dealt, k, j, n) + if j == Lane(|dealt|, n) then [x] else []
  {
    hide Stripe, Lane;
    assert (dealt + [x])[..k] == dealt[..k] && (dealt + [x])[k + 1..] == dealt[k + 1..] + [x];
    StripeAppend(dealt[k + 1..], x, k + 1, j, n);
    assert k + 1 + |dealt[k + 1..]| == |dealt|;
  }

  lemma LaneDeals(n: nat, s: nat, dealt: seq<Item>, x: Item, k: nat, got: seq<Item>, r: RxEnd, wires: seq<Wire>, j: nat)
    requires n >= 1 && k < |dealt| && |wires| == n && j < n && LossyLane(n, s, dealt, k, got, r, wires[j], j)
    ensures var lane := Lane(|dealt|, n);
      LossyLane(n, s, dealt + [x], k, got, r, Posted(wires, lane, Carry(Id(s, lane), x))[j], j)
  {
    hide Stripe, Lane, Items, LaneWithout, L.Waiting;
    DealWithout(dealt, x, k, j, n);
    var lane := Lane(|dealt|, n);
    if j == lane {
      ItemsAppend(wires[j], Carry(Id(s, lane), x));
      Assoc(L.Waiting(r.links, Id(s, j)), Items(wires[j]), [x]);
      Assoc(Stripe(got, 0, j, n), L.Waiting(r.links, Id(s, j)) + Items(wires[j]), [x]);
    }
  }

  lemma SenderMoves(c: Config, s: nat, t: TxEnd, a: TxAct, now: nat)
    requires c.Valid() && TxShape(c.n, s, t) && SenderAt(c.n, t) && TxEnabled(c, t, a) && CalmAct(Tx_(Down, a))
    ensures SenderAt(c.n, TxStep(c, t, a, now))
    ensures var w := |t.tx.dealt|;
      if a.SendPut? then
        && t.tx.sender.Put?
        && var x := Item(t.tx.sender.chunk, now);
           && TxStep(c, t, a, now).tx.dealt == t.tx.dealt + [x]
           && TxPost(c, t, now) == (Lane(w, c.n), Carry(Id(s, Lane(w, c.n)), x))
      else TxStep(c, t, a, now).tx.dealt == t.tx.dealt
  {
    hide Q.Ready;
    var w := |t.tx.dealt|;
    assert Lane(w + 1, c.n) == Next(Lane(w, c.n), c.n);
    hide Lane;
    assert t.tx.sender.Put? ==> Order(s, c.n)[t.tx.sender.i] == Id(s, t.tx.sender.i);
  }

  lemma LossySends(c: Config, s: nat, e: Ends, wires: seq<Wire>, k: nat, got: seq<Item>, a: TxAct, now: nat)
    requires c.Valid() && TxShape(c.n, s, e.t) && Lossy(c.n, s, e, wires, k, got)
    requires TxEnabled(c, e.t, a) && CalmAct(Tx_(Down, a))
    ensures var p := if a.SendPut? then TxPost(c, e.t, now) else (c.n, Est(Master(s), [], 0));
      Lossy(c.n, s, e.(t := TxStep(c, e.t, a, now)), Posted(wires, p.0, p.1), k, got)
  {
    hide TxStep, TxEnabled, TxPost, TxShape, SenderAt, MergeAt, LossyLane, Lane, NoneDone;
    SenderMoves(c, s, e.t, a, now);
    if a.SendPut? {
      var x := Item(e.t.tx.sender.chunk, now);
      forall j | 0 <= j < c.n
        ensures LossyLane(c.n, s, e.t.tx.dealt + [x], k, got, e.r, Posted(wires, TxPost(c, e.t, now).0, TxPost(c, e.t, now).1)[j], j)
      {
        LaneDeals(c.n, s, e.t.tx.dealt, x, k, got, e.r, wires, j);
      }
    }
  }

  // ---- the merge ---------------------------------------------------------

  lemma LaneKeeps(n: nat, s: nat, dealt: seq<Item>, k: nat, got: seq<Item>, r: RxEnd, r': RxEnd, wire: Wire, j: nat)
    requires n >= 1 && k < |dealt| && LossyLane(n, s, dealt, k, got, r, wire, j)
    requires r.rx.merger.Over? ==> r'.rx.merger.Over?
    requires !r'.rx.merger.Over? ==> L.Waiting(r'.links, Id(s, j)) == L.Waiting(r.links, Id(s, j))
    ensures LossyLane(n, s, dealt, k, got, r', wire, j)
  {
    hide Stripe, LaneWithout, Items, L.Waiting;
  }

  lemma LanePops(n: nat, s: nat, dealt: seq<Item>, k: nat, got: seq<Item>, r: RxEnd, r': RxEnd, wire: Wire, j: nat)
    requires n >= 1 && k < |dealt| && LossyLane(n, s, dealt, k, got, r, wire, j) && !r.rx.merger.Over? && !r'.rx.merger.Over?
    requires j == Lane(|got|, n) ==> L.Waiting(r.links, Id(s, j)) != [] && L.Waiting(r'.links, Id(s, j)) == L.Waiting(r.links, Id(s, j))[1..]
    requires j != Lane(|got|, n) ==> L.Waiting(r'.links, Id(s, j)) == L.Waiting(r.links, Id(s, j))
    ensures forall x: Item :: (j == Lane(|got|, n) ==> x == L.Waiting(r.links, Id(s, j))[0]) ==>
      LossyLane(n, s, dealt, k, got + [x], r', wire, j)
  {
    hide Stripe, LaneWithout, Items, Lane, L.Waiting;
    var here := L.Waiting(r.links, Id(s, j));
    forall x: Item | j == Lane(|got|, n) ==> x == here[0] ensures LossyLane(n, s, dealt, k, got + [x], r', wire, j) {
      StripeAppend(got, x, 0, j, n);
      assert 0 + |got| == |got|;
      if j == Lane(|got|, n) {
        assert here == [x] + here[1..];
        Assoc([x], here[1..], Items(wire));
        Assoc(Stripe(got, 0, j, n), [x], here[1..] + Items(wire));
      } else {
        assert Stripe(got, 0, j, n) + [] == Stripe(got, 0, j, n);
      }
    }
  }

  lemma MergeMoves(n: nat, s: nat, r: RxEnd, a: RxAct, got: seq<Item>)
    requires n >= 1 && RxShape(n, s, r) && MergeAt(n, r.rx, got) && RxEnabled(r, a) && CalmAct(Rx_(Down, a)) && !a.MergeRead?
    requires r.rx.merger.Find? ==> r.rx.merger.j < |r.rx.order| && r.rx.order[r.rx.merger.j] in r.links
    ensures var r' := RxStep(r, Master(s), a);
      && MergeAt(n, r'.rx, got) && !r.rx.merger.Over?
      && (forall id :: L.Waiting(r'.links, id) == L.Waiting(r.links, id))
      && (!r'.rx.merger.Over? && NoneDone(r.links) ==> NoneDone(r'.links))
  {
    var p := |got|;
    assert Lane(p, n) == 0 || p > 0;
    assert p > 0 ==> Lane(p, n) == Next(Lane(p - 1, n), n);
    hide Lane;
  }

  lemma MergeReceives(n: nat, s: nat, r: RxEnd, got: seq<Item>)
    requires n >= 1 && RxShape(n, s, r) && MergeAt(n, r.rx, got) && RxEnabled(r, MergeRead)
    ensures var j := Lane(|got|, n);
      && L.Waiting(r.links, Id(s, j)) != []
      && var x, r' := L.Waiting(r.links, Id(s, j))[0], RxStep(r, Master(s), MergeRead);
         && MergeAt(n, r'.rx, got + [x]) && !r.rx.merger.Over? && !r'.rx.merger.Over?
         && L.Waiting(r'.links, Id(s, j)) == L.Waiting(r.links, Id(s, j))[1..]
         && (forall i :: i != j ==> L.Waiting(r'.links, Id(s, i)) == L.Waiting(r.links, Id(s, i)))
         && (NoneDone(r.links) ==> NoneDone(r'.links))
  {
    hide Lane;
    var j := Lane(|got|, n);
    assert Order(s, n)[j] == Id(s, j);
    SentExtend(got, L.Waiting(r.links, Id(s, j))[0], |got|);
  }

  lemma LossyMerges(n: nat, s: nat, e: Ends, wires: seq<Wire>, k: nat, got: seq<Item>, a: RxAct) returns (got': seq<Item>)
    requires n >= 1 && RxShape(n, s, e.r) && Lossy(n, s, e, wires, k, got)
    requires RxEnabled(e.r, a) && CalmAct(Rx_(Down, a))
    requires e.r.rx.merger.Find? ==> e.r.rx.merger.j < |e.r.rx.order| && e.r.rx.order[e.r.rx.merger.j] in e.r.links
    ensures Lossy(n, s, e.(r := RxStep(e.r, Master(s), a)), wires, k, got')
  {
    hide RxShape, RxStep, RxEnabled, SenderAt, MergeAt, LossyLane, Lane, NoneDone, L.Waiting;
    var dealt, r' := e.t.tx.dealt, RxStep(e.r, Master(s), a);
    if a.MergeRead? {
      MergeReceives(n, s, e.r, got);
      var x := L.Waiting(e.r.links, Id(s, Lane(|got|, n)))[0];
      got' := got + [x];
      forall j | 0 <= j < n ensures LossyLane(n, s, dealt, k, got', r', wires[j], j) {
        LanePops(n, s, dealt, k, got, e.r, r', wires[j], j);
      }
    } else {
      got' := got;
      MergeMoves(n, s, e.r, a, got);
      forall j | 0 <= j < n ensures LossyLane(n, s, dealt, k, got', r', wires[j], j) {
        LaneKeeps(n, s, dealt, k, got, e.r, r', wires[j], j);
      }
    }
  }

  // ---- the readers, and everything else ----------------------------------

  lemma LossyReceives(n: nat, s: nat, e: Ends, wires: seq<Wire>, k: nat, got: seq<Item>, l: nat, x: Item)
    requires n >= 1 && Lossy(n, s, e, wires, k, got) && l < n && wires[l] != [] && wires[l][0] == Carry(Id(s, l), x)
    requires Id(s, l) in e.r.links
    ensures Lossy(n, s, e.(r := e.r.(links := Accept(e.r.links, Id(s, l), x))), Dropped(wires, l), k, got)
  {
    hide SenderAt, MergeAt, Stripe, LaneWithout;
    var r', wires' := e.r.(links := Accept(e.r.links, Id(s, l), x)), Dropped(wires, l);
    forall j | 0 <= j < n ensures LossyLane(n, s, e.t.tx.dealt, k, got, r', wires'[j], j) {
      assert LossyLane(n, s, e.t.tx.dealt, k, got, e.r, wires[j], j);
      if j == l {
        assert Items(wires[l]) == [x] + Items(wires[l][1..]);
        Assoc(L.Waiting(e.r.links, Id(s, l)), [x], Items(wires[l][1..]));
      }
    }
  }

  lemma LossyStarts(n: nat, s: nat, e: Ends, e': Ends, wires: seq<Wire>, k: nat, got: seq<Item>)
    requires n >= 1 && Lossy(n, s, e, wires, k, got) && OnlyStarts(e, e')
    requires (forall id :: L.Waiting(e'.r.links, id) == L.Waiting(e.r.links, id)) && (NoneDone(e.r.links) ==> NoneDone(e'.r.links))
    ensures Lossy(n, s, e', wires, k, got)
  {
    hide LossyLane, Lane, NoneDone, L.Waiting;
    forall j | 0 <= j < n ensures LossyLane(n, s, e'.t.tx.dealt, k, got, e'.r, wires[j], j) {
      LaneKeeps(n, s, e.t.tx.dealt, k, got, e.r, e'.r, wires[j], j);
    }
  }

  /** No other step touches what is buffered on the client. */
  lemma OthersKeepLinks(c: Config, s: nat, b: Both, a: Act, now: nat, head: Option<Msg>)
    requires CoreEnabled(c, s, b, a, head) && !ActsOn(a, Down) && (a.Receive? && head.value.Carry? ==> a.dir.Up?)
    ensures var links, links' := b.down.r.links, Core(c, s, b, a, now, head).down.r.links;
      (forall id :: L.Waiting(links', id) == L.Waiting(links, id)) && (NoneDone(links) ==> NoneDone(links'))
  {
    hide TxStep, TxEnabled, AgainStep, AgainEnabled, RxStep, RxEnabled, Accept, TryLaunch, L.Ready, Q.Ready;
  }

  lemma OthersKeepWires(c: Config, s: nat, v: Stream, a: Act, now: nat)
    requires Enabled(c, s, v, a) && CalmAct(a) && !(a.Receive? && a.dir.Down?)
    ensures var p := if a == Tx_(Down, SendPut) then TxPost(c, v.b.down.t, now) else (|v.down|, Est(Master(s), [], 0));
      Step(c, s, v, a, now).down == Posted(v.down, p.0, p.1)
  {
    hide Core, TxEnabled, RxEnabled, TxPost;
  }

  /** Every calm step of the stream keeps it so. */
  lemma LossyStep(c: Config, s: nat, v: Stream, a: Act, now: nat, k: nat, got: seq<Item>) returns (got': seq<Item>)
    requires Always(c, s, v) && Enabled(c, s, v, a) && CalmAct(a) && Lossy(c.n, s, v.b.down, v.down, k, got)
    ensures var v' := Step(c, s, v, a, now); Lossy(c.n, s, v'.b.down, v'.down, k, got')
    ensures v.b.down.t.tx.dealt <= Step(c, s, v, a, now).b.down.t.tx.dealt
  {
    hide Always, Step, Core, CoreEnabled, Lossy, TxStep, TxEnabled, TxPost, TxShape, RxStep, RxEnabled, RxShape, OnlyStarts, Accept, NoneDone;
    got' := got;
    var e := v.b.down;
    assert v.b.At(Down) == e;
    StepEnds(c, s, v, a, now, Down);
    ShapeFacts(c, s, v, Down);
    WasEnabled(c, s, v, a);
    if a.Receive? && a.dir.Down? {
      LossyReceive(c, s, v, a.lane, now, k, got);
    } else {
      OthersKeepWires(c, s, v, a, now);
      LossyWidth(c.n, s, e, v.down, k, got);
      if a.Tx_? && a.dir.Down? {
        LossySends(c, s, e, v.down, k, got, a.tx, now);
        DealtGrows(c, e.t, a.tx, now);
      } else if a.Rx_? && a.dir.Down? {
        MergerLookup(c, s, v, Down);
        LossyRunning(c.n, s, e, v.down, k, got);
        got' := LossyMerges(c.n, s, e, v.down, k, got, a.rx);
      } else {
        LossyOther(c, s, v, a, now, k, got);
      }
    }
  }

  lemma LossyWidth(n: nat, s: nat, e: Ends, wires: seq<Wire>, k: nat, got: seq<Item>)
    requires n >= 1 && Lossy(n, s, e, wires, k, got)
    ensures |wires| == n
  {
  }

  lemma LossyRunning(n: nat, s: nat, e: Ends, wires: seq<Wire>, k: nat, got: seq<Item>)
    requires n >= 1 && Lossy(n, s, e, wires, k, got)
    ensures !e.r.rx.removed
  {
  }

  lemma LossyReceive(c: Config, s: nat, v: Stream, l: nat, now: nat, k: nat, got: seq<Item>)
    requires Always(c, s, v) && Enabled(c, s, v, Receive(Down, l)) && Lossy(c.n, s, v.b.down, v.down, k, got)
    ensures var v' := Step(c, s, v, Receive(Down, l), now);
      Lossy(c.n, s, v'.b.down, v'.down, k, got) && v'.b.down.t == v.b.down.t
  {
    hide Lossy, Accept, UpWireInv, UpLinksInv, DownLinksInv, UpQueueInv, DownQueueInv, TxInv, TxShape, RxInv, RxShape;
    LossyWidth(c.n, s, v.b.down, v.down, k, got);
    LossyRunning(c.n, s, v.b.down, v.down, k, got);
    DataFindsLink(c, s, v, Down, l);
    LossyReceives(c.n, s, v.b.down, v.down, k, got, l, v.down[l][0].item);
  }

  lemma LossyOther(c: Config, s: nat, v: Stream, a: Act, now: nat, k: nat, got: seq<Item>)
    requires Always(c, s, v) && Enabled(c, s, v, a) && CalmAct(a) && Lossy(c.n, s, v.b.down, v.down, k, got)
    requires !ActsOn(a, Down) && !(a.Receive? && a.dir.Down?)
    ensures var v' := Step(c, s, v, a, now);
      Lossy(c.n, s, v'.b.down, v.down, k, got) && v'.b.down.t.tx.dealt == v.b.down.t.tx.dealt
  {
    hide Always, Step, Core, CoreEnabled, Lossy, NoneDone, L.Waiting, TxStep, TxEnabled, TxShape, RxStep, RxEnabled, RxShape;
    assert v.b.At(Down) == v.b.down;
    ShapeFacts(c, s, v, Down);
    StepEnds(c, s, v, a, now, Down);
    StepIsCore(c, s, v, a, now);
    OthersKeepLinks(c, s, v.b, a, now, HeadFor(v, a));
    LossyStarts(c.n, s, v.b.down, Step(c, s, v, a, now).b.down, v.down, k, got);
  }

  // ---- runs of the whole system ------------------------------------------

  /** Stream s of the system has lost the response chunk at index k. */
  ghost predicate LossyStream(c: Config, g: System, s: nat, k: nat, got: seq<Item>) {
    && SystemAlways(c, g) && s < |g.ctls|
    && Lossy(c.n, s, View(c, g, s).b.down, View(c, g, s).down, k, got)
  }

  lemma {:induction false} LossyLeads(c: Config, g: System, evs: seq<Event>, g': System, s: nat, k: nat, got: seq<Item>)
    returns (got': seq<Item>)
    requires LossyStream(c, g, s, k, got) && Leads(c, g, evs, g') && forall e <- evs :: OwnCalm(e, s)
    ensures LossyStream(c, g', s, k, got') && g.down.txs[s].dealt <= g'.down.txs[s].dealt
    decreases |evs|
  {
    hide Always, Fire, CanFire, Step, Enabled, Lossy, OwnCalm;
    got' := got;
    if evs != [] {
      var e, g1 := evs[0], Fire(c, g, evs[0]);
      EventView(c, g, e, s);
      if e.On? && e.s == s {
        assert OwnCalm(e, s);
        assert CalmAct(e.a) by { IsCalm(e, s); }
        got' := LossyStep(c, s, View(c, g, s), e.a, g.clock, k, got);
      }
      got' := LossyLeads(c, g1, evs[1..], g', s, k, got');
    }
  }

  lemma IsCalm(e: Event, s: nat)
    requires OwnCalm(e, s) && e.On? && e.s == s
    ensures CalmAct(e.a)
  {
  }

  /** The m-th element of a lane's share, and the shares before and after it. */
  lemma {:induction false} ShareAt(xs: seq<Item>, off: nat, j: nat, n: nat, m: nat) returns (k: nat)
    requires n >= 1 && m < |Stripe(xs, off, j, n)|
    ensures k < |xs| && Lane(off + k, n) == j && xs[k] == Stripe(xs, off, j, n)[m]
    ensures Stripe(xs[..k], off, j, n) == Stripe(xs, off, j, n)[..m]
    ensures Stripe(xs[k + 1..], off + k + 1, j, n) == Stripe(xs, off, j, n)[m + 1..]
  {
    hide Lane;
    var first := if Lane(off, n) == j then [xs[0]] else [];
    var rest := Stripe(xs[1..], off + 1, j, n);
    assert Stripe(xs, off, j, n) == first + rest;
    if m < |first| {
      k := 0;
      assert xs[..0] == [] && off + 0 == off;
      assert (first + rest)[1..] == rest;
    } else {
      var k1 := ShareAt(xs[1..], off + 1, j, n, m - |first|);
      k := k1 + 1;
      assert off + 1 + k1 == off + k;
      assert xs[..k][0] == xs[0] && xs[..k][1..] == xs[1..][..k1] && xs[1..][k1 + 1..] == xs[k + 1..];
      assert Stripe(xs[..k], off, j, n) == first + Stripe(xs[1..][..k1], off + 1, j, n);
      assert (first + rest)[..m] == first + rest[..m - |first|];
      assert (first + rest)[m + 1..] == rest[m - |first| + 1..];
    }
  }

  /** A lane without the chunk at index k, split at an earlier position. */
  lemma WithoutSplits(dealt: seq<Item>, p: nat, k: nat, j: nat, n: nat)
    requires n >= 1 && p <= k < |dealt|
    ensures LaneWithout(dealt, k, j, n)
         == Stripe(dealt[..p], 0, j, n) + (Stripe(dealt[p..][..k - p], p, j, n) + Stripe(dealt[k + 1..], k + 1, j, n))
    ensures j != Lane(k, n) ==>
      Stripe(dealt[p..], p, j, n) == Stripe(dealt[p..][..k - p], p, j, n) + Stripe(dealt[k + 1..], k + 1, j, n)
  {
    hide Lane, Stripe;
    var before, mid, after := dealt[..p], dealt[p..][..k - p], dealt[k + 1..];
    assert dealt[..k] == before + mid;
    LostChunk.StripeConcat(before, mid, 0, j, n);
    assert 0 + |before| == p;
    Assoc(Stripe(before, 0, j, n), Stripe(mid, p, j, n), Stripe(after, k + 1, j, n));
    assert dealt[p..] == mid + ([dealt[k]] + after);
    LostChunk.StripeConcat(mid, [dealt[k]] + after, p, j, n);
    LostChunk.StripeConcat([dealt[k]], after, k, j, n);
    LostChunk.One(dealt[k], k, j, n);
    assert p + |mid| == k && k + |[dealt[k]]| == k + 1;
    assert j != Lane(k, n) ==> [] + Stripe(after, k + 1, j, n) == Stripe(after, k + 1, j, n);
  }

  lemma {:induction false} SentTake(dealt: seq<Item>, p: nat, q: nat)
    requires q <= p <= |dealt|
    ensures Sent(dealt[..p], q) == Sent(dealt, q)
  {
    if q > 0 { SentTake(dealt, p, q - 1); }
  }

  lemma CalmSender(n: nat, s: nat, t: TxEnd)
    requires n >= 1 && TxInv(n, s, t) && CalmTx(t)
    ensures SenderAt(n, t)
  {
    hide Lane, Bytes, EofLast, NoEof, SourceInv, Equipped, Q.Ready;
  }

  lemma CalmMerge(n: nat, s: nat, dealt: seq<Item>, r: RxEnd, wires: seq<Wire>)
    requires n >= 1 && |wires| == n && RxInv(n, s, dealt, r, wires) && CalmRx(r.rx) && !r.rx.merger.Over?
    ensures MergeAt(n, r.rx, dealt[..r.rx.popped])
  {
    hide Lane, Lanes, Sent, ShutInv, RemovedInv;
    var p := r.rx.popped;
    SentTake(dealt, p, p);
    if p > 0 { SentTake(dealt, p, p - 1); }
  }

  /** The timeout of a calm stream's reader loses exactly the chunk it waited with. */
  lemma LossBegins(n: nat, s: nat, e: Ends, wires: seq<Wire>, l: nat) returns (k: nat)
    requires n >= 1 && |wires| == n && TxInv(n, s, e.t) && RxInv(n, s, e.t.tx.dealt, e.r, wires) && CalmTx(e.t) && CalmRx(e.r.rx)
    requires l < n && wires[l] != [] && wires[l][0].Carry?
    ensures k < |e.t.tx.dealt| && e.t.tx.dealt[k] == wires[l][0].item && Lane(k, n) == l
    ensures e.r.rx.popped <= |e.t.tx.dealt| && Lossy(n, s, e, Dropped(wires, l), k, e.t.tx.dealt[..e.r.rx.popped])
  {
    hide TxInv, SenderAt, MergeAt, Lane, LossyLane, LaneInv, NoneDone, MergerInv, ShutInv, RemovedInv;
    var dealt, p := e.t.tx.dealt, e.r.rx.popped;
    NothingAfterShut(n, s, dealt, e.r, wires, l);
    CalmSender(n, s, e.t);
    CalmMerge(n, s, dealt, e.r, wires);
    assert LaneInv(n, s, dealt, p, e.r.links, wires[l], l);
    k := LostIndex(n, s, dealt, p, e.r.links, wires[l], l);
    forall j | 0 <= j < n ensures LossyLane(n, s, dealt, k, dealt[..p], e.r, Dropped(wires, l)[j], j) {
      assert LaneInv(n, s, dealt, p, e.r.links, wires[j], j);
      LaneLoses(n, s, dealt, p, k, e.r, wires, l, j);
    }
  }

  lemma ItemsHead(wire: Wire)
    requires wire != [] && wire[0].Carry?
    ensures Items(wire) == [wire[0].item] + Items(wire[1..])
  {
  }

  lemma ShareIndex(xs: seq<Item>, off: nat, j: nat, n: nat, a: seq<Item>, x: Item, b: seq<Item>) returns (k: nat)
    requires n >= 1 && Stripe(xs, off, j, n) == a + ([x] + b)
    ensures k < |xs| && Lane(off + k, n) == j && xs[k] == x
    ensures Stripe(xs[..k], off, j, n) == a && Stripe(xs[k + 1..], off + k + 1, j, n) == b
  {
    hide Lane, Stripe;
    var all := a + ([x] + b);
    assert all[|a|] == x && all[..|a|] == a && all[|a| + 1..] == b;
    k := ShareAt(xs, off, j, n, |a|);
  }

  /** Which chunk it is: what is buffered precedes it on its lane, the rest follows. */
  lemma LostIndex(n: nat, s: nat, dealt: seq<Item>, p: nat, links: Hub, wire: Wire, l: nat) returns (k: nat)
    requires n >= 1 && p <= |dealt| && LaneInv(n, s, dealt, p, links, wire, l) && wire != [] && wire[0].Carry?
    ensures p <= k < |dealt| && dealt[k] == wire[0].item && Lane(k, n) == l
    ensures Stripe(dealt[p..][..k - p], p, l, n) == L.Waiting(links, Id(s, l))
    ensures Stripe(dealt[k + 1..], k + 1, l, n) == Items(wire[1..])
  {
    hide Lane, Stripe, L.Waiting, Items;
    ItemsHead(wire);
    var k1 := ShareIndex(dealt[p..], p, l, n, L.Waiting(links, Id(s, l)), wire[0].item, Items(wire[1..]));
    k := p + k1;
    assert dealt[p..][k1 + 1..] == dealt[k + 1..];
  }

  lemma LaneLoses(n: nat, s: nat, dealt: seq<Item>, p: nat, k: nat, r: RxEnd, wires: seq<Wire>, l: nat, j: nat)
    requires n >= 1 && p <= k < |dealt| && |wires| == n && l < n && j < n && wires[l] != [] && !r.rx.merger.Over?
    requires LaneInv(n, s, dealt, p, r.links, wires[j], j) && Lane(k, n) == l
    requires Stripe(dealt[p..][..k - p], p, l, n) == L.Waiting(r.links, Id(s, l))
    requires Stripe(dealt[k + 1..], k + 1, l, n) == Items(wires[l][1..])
    ensures LossyLane(n, s, dealt, k, dealt[..p], r, Dropped(wires, l)[j], j)
  {
    hide Lane, Stripe, LaneWithout, Items, L.Waiting;
    WithoutSplits(dealt, p, k, j, n);
  }

  /** The timeout in the whole system: no stream's set-up or shape depends on it. */
  lemma TimedOutView(c: Config, g: System, l: nat, s: nat)
    requires SystemAlways(c, g) && Head(g.down.wires, l).Some? && s < |g.ctls|
    ensures var g' := TimedOut(g, l);
      && WellFormed(c, g')
      && (g.down.wires[l][0].id.stream != s ==> View(c, g', s) == View(c, g, s))
      && (g.down.wires[l][0].id.stream == s ==>
            && Head(View(c, g, s).down, l) == Head(g.down.wires, l)
            && View(c, g', s) == View(c, g, s).(down := Dropped(View(c, g, s).down, l)))
      && Always(c, s, View(c, g', s))
  {
    hide UpWireInv, UpLinksInv, DownLinksInv, UpQueueInv, DownQueueInv, TxInv, TxShape, RxInv, RxShape, Filter;
    MineDropped(g.down.wires, l, s);
    assert Always(c, s, View(c, g, s));
  }

  lemma TimedOutAlways(c: Config, g: System, l: nat)
    requires SystemAlways(c, g) && Head(g.down.wires, l).Some?
    ensures SystemAlways(c, TimedOut(g, l))
  {
    hide Always, Mine, Own;
    var g' := TimedOut(g, l);
    forall s | 0 <= s < |g.ctls| ensures Always(c, s, View(c, g', s)) {
      TimedOutView(c, g, l, s);
    }
    HeadStreamExists(c, g, Down, l);
    forall o | o >= |g'.ctls| ensures Blank(g'.up, o) && Blank(g'.down, o) {
      assert Blank(g.up, o) && Blank(g.down, o);
      MineDropped(g.down.wires, l, o);
    }
  }

  /** The chunks received start the merge of the lanes without the chunk at index k; each
      is the chunk of its place, or on the lost one's lane the one a round later. */
  ghost predicate MergedWithout(dealt: seq<Item>, k: nat, n: nat, got: seq<Item>)
    requires n >= 1 && k < |dealt|
  {
    && got <= Interleave(LostChunk.Lanes(dealt, k, n), 0)
    && forall i :: 0 <= i < |got| ==> i < |dealt| && LostChunk.ComesOut(dealt, k, n, i, got[i])
  }

  /** After the timeout of a calm stream's reader, in every continuation that is calm for
      the stream, the chunks its merge receives are those of the lanes without the lost
      one: each at its own place, except that its lane is a round ahead. What is written
      is their bytes, but for the chunk in hand. */
  lemma TimeoutShiftsLane(c: Config, evs: seq<Event>, g: System, l: nat, more: seq<Event>, g': System, s: nat)
    returns (k: nat, got: seq<Item>)
    requires c.Valid() && OwnCalmReaches(c, evs, g, s) && s < |g.ctls|
    requires Waits(c, g, l) && g.down.wires[l][0].id.stream == s
    requires Leads(c, TimedOut(g, l), more, g') && forall e <- more :: OwnCalm(e, s)
    ensures WellFormed(c, g) && WellFormed(c, g') && s < |g'.ctls|
    ensures var dealt := g'.down.txs[s].dealt;
      && g.down.txs[s].dealt <= dealt && k < |g.down.txs[s].dealt|
      && dealt[k] == g.down.wires[l][0].item && Lane(k, c.n) == l
      && MergedWithout(dealt, k, c.n, got)
    ensures var out := g'.down.rxs[s].out;
      out == Sent(got, |got|) || (got != [] && out == Sent(got, |got| - 1))
  {
    hide SystemAlways, CalmStream, Leads, OwnCalm, Lossy, TxInv, RxInv, CalmTx, CalmRx, View, MergedWithout, Sent, Lane;
    OwnCalmReachable(c, evs, g, s);
    StreamOf(c, g, s);
    k := LossAt(c, g, l, s);
    got := LossyLeads(c, TimedOut(g, l), more, g', s, k, g.down.txs[s].dealt[..g.down.rxs[s].popped]);
    LossyFacts(c, g', s, k, got);
  }

  lemma LossAt(c: Config, g: System, l: nat, s: nat) returns (k: nat)
    requires CalmStream(c, g, s) && Waits(c, g, l) && g.down.wires[l][0].id.stream == s
    ensures k < |g.down.txs[s].dealt| && g.down.txs[s].dealt[k] == g.down.wires[l][0].item && Lane(k, c.n) == l
    ensures g.down.rxs[s].popped <= |g.down.txs[s].dealt|
    ensures LossyStream(c, TimedOut(g, l), s, k, g.down.txs[s].dealt[..g.down.rxs[s].popped])
  {
    hide Always, Lossy, TxInv, RxInv, CalmTx, CalmRx, Lane, Own, Mine;
    TimedOutAlways(c, g, l);
    TimedOutView(c, g, l, s);
    var v := View(c, g, s);
    k := LossBegins(c.n, s, v.b.down, v.down, l);
  }

  lemma LossyFacts(c: Config, g: System, s: nat, k: nat, got: seq<Item>)
    requires LossyStream(c, g, s, k, got)
    ensures c.Valid() && WellFormed(c, g) && s < |g.ctls| && k < |g.down.txs[s].dealt|
    ensures MergedWithout(g.down.txs[s].dealt, k, c.n, got)
    ensures var out := g.down.rxs[s].out;
      out == Sent(got, |got|) || (got != [] && out == Sent(got, |got| - 1))
  {
    hide Always, SenderAt, NoneDone, LossyLane, Lane, LostChunk.Lanes, LostChunk.ComesOut, Interleave;
    var e, wires, n := View(c, g, s).b.down, View(c, g, s).down, c.n;
    var dealt := e.t.tx.dealt;
    forall j | 0 <= j < n ensures Stripe(got, 0, j, n) <= LostChunk.Lanes(dealt, k, n)[j] {
      LaneStarts(n, s, dealt, k, got, e.r, wires[j], j);
    }
    MergedPrefix(LostChunk.Lanes(dealt, k, n), got, n);
    LostChunk.LossyMerge(dealt, k, n);
  }

  lemma LaneStarts(n: nat, s: nat, dealt: seq<Item>, k: nat, got: seq<Item>, r: RxEnd, wire: Wire, j: nat)
    requires n >= 1 && k < |dealt| && LossyLane(n, s, dealt, k, got, r, wire, j) && j < n
    ensures Stripe(got, 0, j, n) <= LostChunk.Lanes(dealt, k, n)[j]
  {
    hide Stripe, Items, L.Waiting;
  }

  /** Whatever has been taken from lanes in the cyclic order starts their merge. */
  lemma MergedPrefix(lanes: seq<seq<Item>>, got: seq<Item>, n: nat)
    requires n >= 1 && |lanes| == n && forall j :: 0 <= j < n ==> Stripe(got, 0, j, n) <= lanes[j]
    ensures got <= Interleave(lanes, 0)
  {
    hide Stripe, Interleave;
    var rest := seq(n, j requires 0 <= j < n => lanes[j][|Stripe(got, 0, j, n)|..]);
    assert Splits(lanes, got, rest, 0, n);
    InterleaveFromStart(lanes, got, rest, n);
  }

  /** In the bytes: where the lost chunk belongs, the chunk a round later stands. */
  lemma LostPlace(dealt: seq<Item>, k: nat, n: nat, got: seq<Item>, m: nat)
    requires n >= 1 && k < |dealt| && MergedWithout(dealt, k, n, got) && k < m <= |got|
    ensures k + n < |dealt| && Sent(dealt, k) + dealt[k + n].chunk.data <= Sent(got, m)
  {
    hide Interleave, LostChunk.Lanes, Lane;
    assert LostChunk.ComesOut(dealt, k, n, k, got[k]);
    forall i | 0 <= i < k ensures got[i] == dealt[i] {
      assert LostChunk.ComesOut(dealt, k, n, i, got[i]);
    }
    SameSent(dealt, got, k);
    SentPrefix(got, k + 1, m);
  }

  lemma {:induction false} SameSent(a: seq<Item>, b: seq<Item>, k: nat)
    requires k <= |a| && k <= |b| && forall i :: 0 <= i < k ==> a[i] == b[i]
    ensures Sent(a, k) == Sent(b, k)
  {
    if k > 0 { SameSent(a, b, k - 1); }
  }
}
