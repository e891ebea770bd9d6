/** Every step of one stream keeps the invariant. */
module StreamSteps {
  import opened Data
  import opened RoundRobin
  import opened Counting
  import opened Protocol
  import opened Stream
  import opened StreamInvariant
  import Q = QueueHubModel
  import L = LinkHubModel

  // ---- messages joining and leaving the request wires --------------------

  lemma PostUp(n: nat, s: nat, x: Ctl, x': Ctl, wires: seq<Wire>, lane: nat, m: Msg)
    requires UpWireInv(n, s, x.said, x.hi, x.est, x.estSeen, wires) && CtlInv(n, x)
    requires lane < n && OkUp(n, s, m, lane)
    requires x'.hi == x.hi && x'.estSeen == x.estSeen
    requires m.Hi? ==> x'.said == x.said + 1 && lane == x.said && x'.est == x.est
    requires m.Est? ==> x'.said == x.said && lane < x.said && !x.est && !x.estSeen && x'.est
    requires m.Carry? ==> x'.said == x.said && lane < x.said && x'.est == x.est
    ensures UpWireInv(n, s, x'.said, x'.hi, x'.est, x'.estSeen, Posted(wires, lane, m))
  {
    var wires' := Posted(wires, lane, m);
    EstsAppend(wires[lane], m);
    forall j | 0 <= j < n ensures HiInv(x'.said, x'.hi, wires'[j], j) {
      assert HiInv(x.said, x.hi, wires[j], j);
    }
  }

  lemma PostKeepsItems(n: nat, s: nat, dealt: seq<Item>, r: RxEnd, wires: seq<Wire>, lane: nat, m: Msg)
    requires n >= 1 && |wires| == n && RxInv(n, s, dealt, r, wires) && lane < n && !m.Carry?
    ensures RxInv(n, s, dealt, r, Posted(wires, lane, m))
  {
    hide Lanes, Stripe, MergerInv, ShutInv, RemovedInv;
    ItemsAppend(wires[lane], m);
    RxHubChange(n, s, dealt, r, r, wires, Posted(wires, lane, m));
  }

  lemma DropUp(n: nat, s: nat, x: Ctl, x': Ctl, wires: seq<Wire>, lane: nat)
    requires UpWireInv(n, s, x.said, x.hi, x.est, x.estSeen, wires) && CtlInv(n, x)
    requires Head(wires, lane).Some?
    requires x'.said == x.said && x'.est == x.est
    requires x'.hi == (if wires[lane][0].Hi? then x.hi + {lane} else x.hi)
    requires x'.estSeen == (x.estSeen || wires[lane][0].Est?)
    ensures UpWireInv(n, s, x'.said, x'.hi, x'.est, x'.estSeen, Dropped(wires, lane))
    ensures lane < x.said
    ensures wires[lane][0].Hi? <==> lane !in x.hi
    ensures wires[lane][0].Est? ==> x.est && !x.estSeen && lane == 0
    ensures OkUp(n, s, wires[lane][0], lane)
  {
    assert HiInv(x.said, x.hi, wires[lane], lane);
    var wires' := Dropped(wires, lane);
    forall j | 0 <= j < n ensures HiInv(x'.said, x'.hi, wires'[j], j) {
      assert HiInv(x.said, x.hi, wires[j], j);
    }
    forall j, k | 0 <= j < n && 0 <= k < |wires'[j]| ensures OkUp(n, s, wires'[j][k], j) {
      assert OkUp(n, s, if j == lane then wires[j][k + 1] else wires[j][k], j);
    }
  }

  lemma DropKeepsItems(n: nat, s: nat, dealt: seq<Item>, r: RxEnd, wires: seq<Wire>, lane: nat)
    requires n >= 1 && |wires| == n && RxInv(n, s, dealt, r, wires)
    requires Head(wires, lane).Some? && !wires[lane][0].Carry?
    ensures RxInv(n, s, dealt, r, Dropped(wires, lane))
  {
    hide Lanes, Stripe, MergerInv, ShutInv, RemovedInv;
    assert Items(wires[lane]) == [] + Items(wires[lane][1..]);
    RxHubChange(n, s, dealt, r, r, wires, Dropped(wires, lane));
  }

  // ---- client set-up -----------------------------------------------------

  lemma SayKeeps(c: Config, s: nat, v: Stream, now: nat)
    requires Always(c, s, v) && Enabled(c, s, v, Say)
    ensures Always(c, s, Step(c, s, v, Say, now)) && (Ordered(c.n, s, v) ==> Ordered(c.n, s, Step(c, s, v, Say, now)))
  {
    hide UpWireInv, DownWireInv, UpLinksInv, DownLinksInv, UpQueueInv, DownQueueInv, TxInv, TxShape, RxInv, RxShape;
    var x := v.b.ctl;
    var m := Hi(Id(s, x.said), Master(s), now);
    PostUp(c.n, s, x, x.(said := x.said + 1), v.up, x.said, m);
    PostKeepsItems(c.n, s, v.b.up.t.tx.dealt, v.b.up.r, v.up, x.said, m);
  }

  lemma SendEstKeeps(c: Config, s: nat, v: Stream, now: nat)
    requires Always(c, s, v) && Enabled(c, s, v, SendEst)
    ensures Always(c, s, Step(c, s, v, SendEst, now)) && (Ordered(c.n, s, v) ==> Ordered(c.n, s, Step(c, s, v, SendEst, now)))
  {
    hide UpWireInv, DownWireInv, UpLinksInv, DownLinksInv, UpQueueInv, DownQueueInv, TxInv, TxShape, RxInv, RxShape;
    var x := v.b.ctl;
    var m := Est(Master(s), Order(s, c.n), now);
    PostUp(c.n, s, x, x.(est := true), v.up, 0, m);
    PostKeepsItems(c.n, s, v.b.up.t.tx.dealt, v.b.up.r, v.up, 0, m);
  }

  /** The client's own Add never launches Send: the order is still empty. */
  lemma RegisterQueue(n: nat, s: nat, added: nat, t: TxEnd)
    requires n >= 1 && UpQueueInv(n, s, added, false, t) && TxInv(n, s, t) && added < n
    ensures var t1 := t.(queue := Some(Q.WithWriter(t.queue, Id(s, added), added)));
      && TryLaunch(t1) == t1
      && UpQueueInv(n, s, added + 1, false, t1) && TxInv(n, s, t1)
  {
    hide TxInv, WritersAre;
    var q := Q.WithWriter(t.queue, Id(s, added), added);
    WriterNeedsOrder(Q.Ensured(t.queue), q, Id(s, added), added);
    NextWriter(s, t.queue, added);
    RegisterTx(n, s, t, q);
  }

  /** A queue with a writer and no order is not launched. */
  lemma WriterNeedsOrder(q: Q.Queue, q': Q.Queue, id: Id, lane: nat)
    requires q' == q.(writers := q.writers[id := lane]) && q.sorted == []
    ensures !Q.Ready(Some(q'))
  {
    assert id in q'.writers.Keys;
  }

  lemma NextWriter(s: nat, e: Option<Q.Queue>, added: nat)
    requires e.Some? ==> WritersAre(s, e.value, Below(added))
    requires e.None? ==> added == 0
    ensures WritersAre(s, Q.WithWriter(e, Id(s, added), added), Below(added + 1))
  {
    assert Below(added + 1) == Below(added) + {added};
  }

  lemma RegisterTx(n: nat, s: nat, t: TxEnd, q: Q.Queue)
    requires n >= 1 && TxInv(n, s, t) && t.tx.gone.None? && !Begun(t.tx) && t.tx.pending == 0
    requires q == Q.Ensured(t.queue).(writers := q.writers)
    ensures TxInv(n, s, t.(queue := Some(q)))
  {
    hide Bytes, Lane, EofLast, SourceInv, Q.Ready, Equipped;
  }

  lemma RegisterLink(n: nat, s: nat, added: nat, dealt: seq<Item>, r: RxEnd, wires: seq<Wire>)
    requires n >= 1 && |wires| == n && DownLinksInv(n, s, added, false, r) && RxShape(n, s, r) && added < n
    ensures var r1 := r.(links := L.AddLink(r.links, Id(s, added), Master(s)));
      && TryLaunchLinks(r1, Master(s)) == r1
      && DownLinksInv(n, s, added + 1, false, r1) && RxShape(n, s, r1)
      && (RxInv(n, s, dealt, r, wires) ==> RxInv(n, s, dealt, r1, wires))
  {
    hide Lanes, Stripe, MergerInv, ShutInv, RemovedInv;
    var r1 := r.(links := L.AddLink(r.links, Id(s, added), Master(s)));
    ShapeHubChange(n, s, r, r1);
    if RxInv(n, s, dealt, r, wires) {
      RxHubChange(n, s, dealt, r, r1, wires, wires);
    }
  }

  lemma RegisterKeeps(c: Config, s: nat, v: Stream, now: nat)
    requires Always(c, s, v) && Enabled(c, s, v, Register)
    ensures Always(c, s, Step(c, s, v, Register, now)) && (Ordered(c.n, s, v) ==> Ordered(c.n, s, Step(c, s, v, Register, now)))
  {
    hide UpWireInv, DownWireInv, UpLinksInv, DownLinksInv, UpQueueInv, DownQueueInv, TxInv, TxShape, RxInv, RxShape;
    hide TryLaunch, TryLaunchLinks, L.AddLink, Q.WithWriter;
    RegisterQueue(c.n, s, v.b.ctl.added, v.b.up.t);
    RegisterLink(c.n, s, v.b.ctl.added, v.b.down.t.tx.dealt, v.b.down.r, v.down);
  }

  lemma StartQueueTx(n: nat, s: nat, t: TxEnd)
    requires n >= 1 && UpQueueInv(n, s, n, false, t) && TxInv(n, s, t) && t.queue.Some?
    ensures var t1 := TxEnd(Some(Q.WithSort(t.queue, Order(s, n))), t.tx.(pending := t.tx.pending + 1, source := Reading));
      UpQueueInv(n, s, n, true, t1) && TxInv(n, s, t1)
  {
    hide Bytes, Lane, EofLast, NoEof;
  }

  lemma StartQueueKeeps(c: Config, s: nat, v: Stream, now: nat)
    requires Always(c, s, v) && Enabled(c, s, v, StartQueue)
    ensures Always(c, s, Step(c, s, v, StartQueue, now)) && (Ordered(c.n, s, v) ==> Ordered(c.n, s, Step(c, s, v, StartQueue, now)))
  {
    hide UpWireInv, DownWireInv, UpLinksInv, DownLinksInv, UpQueueInv, DownQueueInv, TxInv, TxShape, RxInv, RxShape;
    StartQueueTx(c.n, s, v.b.up.t);
  }

  lemma FindLinkKeeps(c: Config, s: nat, v: Stream, now: nat)
    requires Always(c, s, v) && Enabled(c, s, v, FindLink)
    ensures Always(c, s, Step(c, s, v, FindLink, now)) && (Ordered(c.n, s, v) ==> Ordered(c.n, s, Step(c, s, v, FindLink, now)))
  {
    hide UpWireInv, DownWireInv, UpLinksInv, DownLinksInv, UpQueueInv, DownQueueInv, TxInv, TxShape, RxInv, RxShape;
  }

  lemma StartLinkRx(n: nat, s: nat, dealt: seq<Item>, r: RxEnd, wires: seq<Wire>)
    requires n >= 1 && |wires| == n && DownLinksInv(n, s, n, false, r) && RxShape(n, s, r)
    ensures
      var links := if r.rx.removed then r.links
                   else L.SortLink(L.ConnectLink(r.links, Master(s)), Master(s), Order(s, n));
      var r1 := RxEnd(links, Launch(r.rx, Order(s, n)));
      && DownLinksInv(n, s, n, true, r1) && RxShape(n, s, r1)
      && (RxInv(n, s, dealt, r, wires) ==> RxInv(n, s, dealt, r1, wires))
  {
    hide Lanes, Stripe, ShutInv, Order;
    var links := if r.rx.removed then r.links
                 else L.SortLink(L.ConnectLink(r.links, Master(s)), Master(s), Order(s, n));
    var r1 := RxEnd(links, Launch(r.rx, Order(s, n)));
    ShapeHubChange(n, s, r, r1);
    if RxInv(n, s, dealt, r, wires) {
      RxHubChange(n, s, dealt, r, r1, wires, wires);
    }
  }

  lemma StartLinkKeeps(c: Config, s: nat, v: Stream, now: nat)
    requires Always(c, s, v) && Enabled(c, s, v, StartLink)
    ensures Always(c, s, Step(c, s, v, StartLink, now)) && (Ordered(c.n, s, v) ==> Ordered(c.n, s, Step(c, s, v, StartLink, now)))
  {
    hide UpWireInv, DownWireInv, UpLinksInv, DownLinksInv, UpQueueInv, DownQueueInv, TxInv, TxShape, RxInv, RxShape;
    StartLinkRx(c.n, s, v.b.down.t.tx.dealt, v.b.down.r, v.down);
  }

  // ---- server set-up -----------------------------------------------------

  lemma ConnectRx(n: nat, s: nat, hi: set<nat>, dealt: seq<Item>, r: RxEnd, wires: seq<Wire>)
    requires n >= 1 && |wires| == n && UpLinksInv(n, s, hi, true, false, r) && RxInv(n, s, dealt, r, wires)
    ensures var r1 := TryLaunchLinks(r.(links := L.ConnectLink(r.links, Master(s))), Master(s));
      UpLinksInv(n, s, hi, true, true, r1) && RxInv(n, s, dealt, r1, wires)
  {
    hide Lanes, Stripe, ShutInv, Order;
    var r1 := TryLaunchLinks(r.(links := L.ConnectLink(r.links, Master(s))), Master(s));
    RxHubChange(n, s, dealt, r, r1, wires, wires);
  }

  lemma ConnectKeeps(c: Config, s: nat, v: Stream, ok: bool, now: nat)
    requires Always(c, s, v) && Enabled(c, s, v, Connect(ok))
    ensures Always(c, s, Step(c, s, v, Connect(ok), now)) && (Ordered(c.n, s, v) ==> Ordered(c.n, s, Step(c, s, v, Connect(ok), now)))
  {
    hide UpWireInv, DownWireInv, UpLinksInv, DownLinksInv, UpQueueInv, TxInv, TxShape, RxInv, RxShape;
    if ok {
      ConnectRx(c.n, s, v.b.ctl.hi, v.b.up.t.tx.dealt, v.b.up.r, v.up);
    }
  }

  /** The server's queue is launched only when every lane's writer is there:
      comparing two sizes stands in for comparing two sets. */
  lemma ReadyMeansEquipped(n: nat, s: nat, hi: set<nat>, estSeen: bool, q: Q.Queue)
    requires n >= 1 && hi <= Below(n) && (hi != {} || estSeen) && WritersAre(s, q, hi)
    requires q.sorted == if estSeen then Order(s, n) else []
    ensures Q.Ready(Some(q)) <==> hi == Below(n) && estSeen
    ensures Q.Ready(Some(q)) ==> Equipped(n, s, q)
  {
    LaneIds(s, hi, q.writers.Keys);
    CountedAll(hi, n);
    assert |q.writers| == |q.writers.Keys|;
    assert hi != {} ==> |hi| > 0;
  }

  lemma {:induction false} LaneIds(s: nat, lanes: set<nat>, ids: set<Id>)
    requires forall id :: id in ids <==> id.stream == s && id.lane in lanes
    ensures |ids| == |lanes|
  {
    if lanes == {} {
      assert ids == {};
    } else {
      var j :| j in lanes;
      LaneIds(s, lanes - {j}, ids - {Id(s, j)});
      assert Id(s, j) in ids;
    }
  }

  /** Launching, or not, keeps the sending side as it is. */
  lemma LaunchTx(n: nat, s: nat, t: TxEnd)
    requires n >= 1 && TxShape(n, s, t)
    requires Q.Ready(t.queue) ==> t.tx.gone.None? && Equipped(n, s, t.queue.value)
    ensures TxShape(n, s, TryLaunch(t)) && (TxInv(n, s, t) ==> TxInv(n, s, TryLaunch(t)))
  {
    hide Bytes, Lane, EofLast, NoEof, Equipped;
  }

  lemma ServeTx(n: nat, s: nat, hi: set<nat>, t: TxEnd)
    requires n >= 1 && hi <= Below(n) && DownQueueInv(n, s, hi, true, true, false, t) && TxShape(n, s, t)
    ensures var t1 := TryLaunch(t);
      var t2 := t1.(tx := t1.tx.(source := if t1.tx.gone.None? then Reading else Stopped));
      DownQueueInv(n, s, hi, true, true, true, t2) && TxShape(n, s, t2) && (TxInv(n, s, t) ==> TxInv(n, s, t2))
  {
    hide Bytes, Lane, EofLast, NoEof;
    if t.tx.gone.None? {
      ReadyMeansEquipped(n, s, hi, true, t.queue.value);
    }
    LaunchTx(n, s, t);
  }

  lemma ServeKeeps(c: Config, s: nat, v: Stream, now: nat)
    requires Always(c, s, v) && Enabled(c, s, v, Serve)
    ensures Always(c, s, Step(c, s, v, Serve, now)) && (Ordered(c.n, s, v) ==> Ordered(c.n, s, Step(c, s, v, Serve, now)))
  {
    hide UpWireInv, DownWireInv, UpLinksInv, DownLinksInv, UpQueueInv, DownQueueInv, TxInv, TxShape, RxInv, RxShape;
    assert Below(v.b.ctl.said) <= Below(c.n);
    ServeTx(c.n, s, v.b.ctl.hi, v.b.down.t);
  }

  // ---- dispatch ----------------------------------------------------------

  /** One more writer changes nothing about the sending side itself. */
  lemma WriterTx(n: nat, s: nat, t: TxEnd, lane: nat)
    requires n >= 1 && TxShape(n, s, t) && lane < n
    requires t.tx.gone.Some? && t.queue.Some? ==> t.queue.value.sorted == []
    ensures var t1 := t.(queue := Some(Q.WithWriter(t.queue, Id(s, lane), lane)));
      TxShape(n, s, t1) && (TxInv(n, s, t) ==> TxInv(n, s, t1))
  {
    hide Bytes, Lane, EofLast, NoEof;
    assert Id(s, lane) in Q.WithWriter(t.queue, Id(s, lane), lane).writers;
  }

  lemma WriterAdded(s: nat, e: Option<Q.Queue>, lanes: set<nat>, lane: nat)
    requires WritersAre(s, Q.Ensured(e), lanes)
    ensures WritersAre(s, Q.WithWriter(e, Id(s, lane), lane), lanes + {lane})
  {
  }

  /** Hi at the server's queue hub: the last one launches Send if the order is
      known. After a removal it only leaves an entry that can never launch. */
  lemma HiTx(n: nat, s: nat, hi: set<nat>, estSeen: bool, dialed: bool, serving: bool, t: TxEnd, lane: nat)
    requires n >= 1 && DownQueueInv(n, s, hi, estSeen, dialed, serving, t) && TxShape(n, s, t)
    requires hi <= Below(n) && lane < n && lane !in hi && (serving ==> estSeen)
    ensures var t1 := TryLaunch(t.(queue := Some(Q.WithWriter(t.queue, Id(s, lane), lane))));
      DownQueueInv(n, s, hi + {lane}, estSeen, dialed, serving, t1) && TxShape(n, s, t1) && (TxInv(n, s, t) ==> TxInv(n, s, t1))
  {
    var q := Q.WithWriter(t.queue, Id(s, lane), lane);
    var t1 := t.(queue := Some(q));
    assert hi != Below(n);
    WriterTx(n, s, t, lane);
    if t.tx.gone.None? {
      WriterAdded(s, t.queue, hi, lane);
      ReadyMeansEquipped(n, s, hi + {lane}, estSeen, q);
    } else {
      assert Id(s, lane) in q.writers;
      assert q.sorted == [] && q.writers != map[];
    }
    hide TxInv, TxShape, WritersAre, Equipped;
    LaunchTx(n, s, t1);
  }

  lemma AddLinkEffect(links: Hub, id: Id, master: Id)
    ensures var m := L.AddLink(links, id, master);
      && m.Keys == links.Keys + {id, master}
      && m[master] == L.Ensured(links, master, master).(counter := L.Ensured(links, master, master).counter + 1)
  {
  }

  lemma CountOneMore(hi: set<nat>, n: nat, lane: nat)
    requires hi <= Below(n) && lane < n && lane !in hi
    ensures |hi + {lane}| == |hi| + 1 <= n
    ensures hi != Below(n)
  {
    CountedAll(hi, n);
    CountedAll(hi + {lane}, n);
  }

  /** Hi at the server's link hub while the group is there. */
  lemma HiLinksLive(n: nat, s: nat, hi: set<nat>, estSeen: bool, dialed: bool, r: RxEnd, lane: nat)
    requires n >= 1 && UpLinksInv(n, s, hi, estSeen, dialed, r) && !r.rx.removed
    requires hi <= Below(n) && lane < n && lane !in hi && (dialed ==> estSeen)
    ensures var r0 := r.(links := L.AddLink(r.links, Id(s, lane), Master(s)));
      && UpLinksInv(n, s, hi + {lane}, estSeen, dialed, TryLaunchLinks(r0, Master(s)))
      && (L.Ready(r0.links, Master(s)) ==> r.rx.launches == 0 && r0.links[Master(s)].sorted == Order(s, n))
  {
    hide Order, L.AddLink, Below;
    CountOneMore(hi, n, lane);
    AddLinkEffect(r.links, Id(s, lane), Master(s));
    assert |Order(s, n)| == n;
  }

  /** Hi after the removal: what it leaves behind has no connection. */
  lemma HiLinksGone(n: nat, s: nat, hi: set<nat>, estSeen: bool, dialed: bool, r: RxEnd, lane: nat)
    requires n >= 1 && UpLinksInv(n, s, hi, estSeen, dialed, r) && r.rx.removed
    requires hi <= Below(n) && lane < n && lane !in hi
    ensures var r0 := r.(links := L.AddLink(r.links, Id(s, lane), Master(s)));
      && UpLinksInv(n, s, hi + {lane}, estSeen, dialed, r0)
      && !L.Ready(r0.links, Master(s)) && r.rx.launches == 0
  {
    hide Order, L.AddLink, Below;
    CountOneMore(hi, n, lane);
    AddLinkEffect(r.links, Id(s, lane), Master(s));
  }

  lemma HiRx(n: nat, s: nat, hi: set<nat>, estSeen: bool, dialed: bool, dealt: seq<Item>, r: RxEnd, wires: seq<Wire>, lane: nat)
    requires n >= 1 && |wires| == n && UpLinksInv(n, s, hi, estSeen, dialed, r) && RxInv(n, s, dealt, r, wires)
    requires hi <= Below(n) && lane < n && lane !in hi && (dialed ==> estSeen)
    ensures var r1 := TryLaunchLinks(r.(links := L.AddLink(r.links, Id(s, lane), Master(s))), Master(s));
      UpLinksInv(n, s, hi + {lane}, estSeen, dialed, r1) && RxInv(n, s, dealt, r1, wires)
  {
    hide Lanes, Stripe, ShutInv, Order, MergerInv, RemovedInv, UpLinksInv;
    var r0 := r.(links := L.AddLink(r.links, Id(s, lane), Master(s)));
    if r.rx.removed {
      HiLinksGone(n, s, hi, estSeen, dialed, r, lane);
    } else {
      HiLinksLive(n, s, hi, estSeen, dialed, r, lane);
    }
    RxHubChange(n, s, dealt, r, TryLaunchLinks(r0, Master(s)), wires, wires);
  }

  lemma HiKeeps(c: Config, s: nat, v: Stream, lane: nat, now: nat)
    requires Head(v.up, lane).Some? && v.up[lane][0].Hi?
    requires Always(c, s, v) && Enabled(c, s, v, Receive(Up, lane))
    ensures Always(c, s, Step(c, s, v, Receive(Up, lane), now)) && (Ordered(c.n, s, v) ==> Ordered(c.n, s, Step(c, s, v, Receive(Up, lane), now)))
  {
    hide UpWireInv, DownWireInv, UpLinksInv, DownLinksInv, UpQueueInv, DownQueueInv, TxInv, TxShape, RxInv, RxShape, L.AddLink, Q.WithWriter;
    var x := v.b.ctl;
    assert Below(x.said) <= Below(c.n);
    DropUp(c.n, s, x, x.(hi := x.hi + {lane}), v.up, lane);
    DropKeepsItems(c.n, s, v.b.up.t.tx.dealt, v.b.up.r, v.up, lane);
    HiTx(c.n, s, x.hi, x.estSeen, x.dial.Ok?, x.serving, v.b.down.t, lane);
    HiRx(c.n, s, x.hi, x.estSeen, x.dial.Ok?, v.b.up.t.tx.dealt, v.b.up.r, Dropped(v.up, lane), lane);
  }

  lemma EstTx(n: nat, s: nat, hi: set<nat>, t: TxEnd)
    requires n >= 1 && DownQueueInv(n, s, hi, false, false, false, t) && TxShape(n, s, t)
    ensures var t1 := t.(queue := Some(Q.WithSort(t.queue, Order(s, n))));
      DownQueueInv(n, s, hi, true, false, false, t1) && TxShape(n, s, t1) && (TxInv(n, s, t) ==> TxInv(n, s, t1))
  {
    hide Bytes, Lane, EofLast, NoEof;
  }

  lemma EstRx(n: nat, s: nat, hi: set<nat>, dealt: seq<Item>, r: RxEnd, wires: seq<Wire>)
    requires n >= 1 && |wires| == n && UpLinksInv(n, s, hi, false, false, r) && RxInv(n, s, dealt, r, wires)
    ensures var r1 := r.(links := L.SortLink(r.links, Master(s), Order(s, n)));
      UpLinksInv(n, s, hi, true, false, r1) && RxInv(n, s, dealt, r1, wires)
  {
    hide Lanes, Stripe, ShutInv, Order, MergerInv;
    RxHubChange(n, s, dealt, r, r.(links := L.SortLink(r.links, Master(s), Order(s, n))), wires, wires);
  }

  lemma EstKeeps(c: Config, s: nat, v: Stream, lane: nat, now: nat)
    requires Head(v.up, lane).Some? && v.up[lane][0].Est?
    requires Always(c, s, v) && Enabled(c, s, v, Receive(Up, lane))
    ensures Always(c, s, Step(c, s, v, Receive(Up, lane), now)) && (Ordered(c.n, s, v) ==> Ordered(c.n, s, Step(c, s, v, Receive(Up, lane), now)))
  {
    hide UpWireInv, UpLinksInv, DownLinksInv, UpQueueInv, DownQueueInv, TxInv, TxShape, RxInv, RxShape;
    var x := v.b.ctl;
    DropUp(c.n, s, x, x.(estSeen := true), v.up, lane);
    DropKeepsItems(c.n, s, v.b.up.t.tx.dealt, v.b.up.r, v.up, lane);
    EstTx(c.n, s, x.hi, v.b.down.t);
    EstRx(c.n, s, x.hi, v.b.up.t.tx.dealt, v.b.up.r, Dropped(v.up, lane));
  }

  /** Pushing to a link changes nothing the set-up invariants speak of. */
  lemma AcceptLinks(c: Config, s: nat, x: Ctl, r: RxEnd, id: Id, m: Item)
    ensures var r1 := r.(links := Accept(r.links, id, m));
      && (UpLinksInv(c.n, s, x.hi, x.estSeen, x.dial.Ok?, r) ==> UpLinksInv(c.n, s, x.hi, x.estSeen, x.dial.Ok?, r1))
      && (DownLinksInv(c.n, s, x.added, x.linkStarted, r) ==> DownLinksInv(c.n, s, x.added, x.linkStarted, r1))
  {
    assert Accept(r.links, id, m).Keys == r.links.Keys;
  }

  lemma AcceptShape(n: nat, s: nat, r: RxEnd, id: Id, m: Item)
    requires RxShape(n, s, r)
    ensures RxShape(n, s, r.(links := Accept(r.links, id, m)))
  {
    assert Accept(r.links, id, m).Keys == r.links.Keys;
  }

  /** A data message always finds its link, unless the group was removed. */
  lemma DataFindsLink(c: Config, s: nat, v: Stream, d: Dir, lane: nat)
    requires Always(c, s, v) && Head(v.Wires(d), lane).Some? && v.Wires(d)[lane][0].Carry?
    ensures v.Wires(d)[lane][0].id == Id(s, lane)
    ensures !v.b.At(d).r.rx.removed ==> Id(s, lane) in v.b.At(d).r.links
  {
    hide UpQueueInv, DownQueueInv, TxInv, TxShape, RxInv, RxShape;
    if d.Up? {
      var x := v.b.ctl;
      DropUp(c.n, s, x, x, v.up, lane);
    }
  }

  lemma DropDown(n: nat, s: nat, estSeen: bool, wires: seq<Wire>, lane: nat)
    requires DownWireInv(n, s, estSeen, wires) && Head(wires, lane).Some?
    ensures DownWireInv(n, s, estSeen, Dropped(wires, lane))
    ensures wires[lane][0].Carry?
  {
    var wires': seq<Wire> := Dropped(wires, lane);
    forall j, k | 0 <= j < n && 0 <= k < |wires'[j]| ensures wires'[j][k].Carry? && wires'[j][k].id == Id(s, j) {
      assert wires'[j][k] == if j == lane then wires[j][k + 1] else wires[j][k];
    }
  }

  lemma DropWire(c: Config, s: nat, v: Stream, d: Dir, lane: nat)
    requires Always(c, s, v) && Head(v.Wires(d), lane).Some? && v.Wires(d)[lane][0].Carry?
    ensures var w, x := v.WithWires(d, Dropped(v.Wires(d), lane)), v.b.ctl;
      UpWireInv(c.n, s, x.said, x.hi, x.est, x.estSeen, w.up) && DownWireInv(c.n, s, x.estSeen, w.down)
  {
    hide UpWireInv, DownWireInv, UpLinksInv, DownLinksInv, UpQueueInv, DownQueueInv, TxInv, TxShape, RxInv, RxShape;
    if d.Up? {
      DropUp(c.n, s, v.b.ctl, v.b.ctl, v.up, lane);
    } else {
      DropDown(c.n, s, v.b.ctl.estSeen, v.down, lane);
    }
  }

  lemma DataKeeps(c: Config, s: nat, v: Stream, d: Dir, lane: nat, now: nat)
    requires Head(v.Wires(d), lane).Some? && v.Wires(d)[lane][0].Carry?
    requires Always(c, s, v) && Enabled(c, s, v, Receive(d, lane))
    ensures Always(c, s, Step(c, s, v, Receive(d, lane), now)) && (Ordered(c.n, s, v) ==> Ordered(c.n, s, Step(c, s, v, Receive(d, lane), now)))
  {
    hide UpWireInv, DownWireInv, UpLinksInv, DownLinksInv, UpQueueInv, DownQueueInv, TxInv, TxShape, RxInv, RxShape, Accept;
    var e, m := v.b.At(d), v.Wires(d)[lane][0].item;
    DataFindsLink(c, s, v, d, lane);
    DropWire(c, s, v, d, lane);
    if d.Up? || Ordered(c.n, s, v) {
      RxReceive(c.n, s, e.t.tx.dealt, e.r, v.Wires(d), lane, m);
    }
    AcceptLinks(c, s, v.b.ctl, e.r, Id(s, lane), m);
    AcceptShape(c.n, s, v.b.down.r, Id(s, lane), m);
  }

  lemma DiscardKeeps(c: Config, s: nat, v: Stream, d: Dir, lane: nat, now: nat)
    requires Always(c, s, v) && Enabled(c, s, v, Discard(d, lane))
    ensures Always(c, s, Step(c, s, v, Discard(d, lane), now)) && (Ordered(c.n, s, v) ==> Ordered(c.n, s, Step(c, s, v, Discard(d, lane), now)))
  {
    hide UpWireInv, DownWireInv, UpLinksInv, DownLinksInv, UpQueueInv, DownQueueInv, TxInv, TxShape, RxInv, RxShape;
    DropWire(c, s, v, d, lane);
    if d.Up? || Ordered(c.n, s, v) {
      RxDiscard(c.n, s, v.b.At(d).t.tx.dealt, v.b.At(d).r, v.Wires(d), lane);
    }
  }

  lemma ReceiveKeeps(c: Config, s: nat, v: Stream, d: Dir, lane: nat, now: nat)
    requires Always(c, s, v) && Enabled(c, s, v, Receive(d, lane))
    ensures Always(c, s, Step(c, s, v, Receive(d, lane), now)) && (Ordered(c.n, s, v) ==> Ordered(c.n, s, Step(c, s, v, Receive(d, lane), now)))
  {
    hide UpWireInv, DownWireInv, UpLinksInv, DownLinksInv, UpQueueInv, DownQueueInv, TxInv, TxShape, RxInv, RxShape;
    if d.Down? {
      DropDown(c.n, s, v.b.ctl.estSeen, v.down, lane);
    }
    match v.Wires(d)[lane][0]
    case Hi(_, _, _) => HiKeeps(c, s, v, lane, now);
    case Est(_, _, _) => EstKeeps(c, s, v, lane, now);
    case Carry(_, _) => DataKeeps(c, s, v, d, lane, now);
  }

  // ---- the sending loop --------------------------------------------------

  /** What the loop and the source leave alone. */
  lemma TxFrame(c: Config, s: nat, t: TxEnd, a: TxAct, now: nat)
    requires c.Valid() && TxShape(c.n, s, t) && TxEnabled(c, t, a) && !a.CloseQueue?
    ensures var t' := TxStep(c, t, a, now);
      && t'.queue.Some? == t.queue.Some? && t'.tx.gone.Some? == t.tx.gone.Some?
      && (t.queue.Some? ==> t'.queue.value.writers == t.queue.value.writers && t'.queue.value.sorted == t.queue.value.sorted)
      && (t'.tx.source.Off? == t.tx.source.Off?)
      && (Begun(t.tx) ==> Begun(t'.tx) && t'.tx.pending <= t.tx.pending)
      && (!Begun(t.tx) ==> t'.tx.pending + (if Begun(t'.tx) then 1 else 0) == t.tx.pending)
  {
    hide Equipped, Q.Ready;
  }

  lemma UpQueueKeeps(c: Config, s: nat, x: Ctl, t: TxEnd, a: TxAct, now: nat)
    requires c.Valid() && TxShape(c.n, s, t) && TxEnabled(c, t, a)
    requires UpQueueInv(c.n, s, x.added, x.queueStarted, t) && (a.CloseQueue? ==> x.added == c.n)
    ensures UpQueueInv(c.n, s, x.added, x.queueStarted, TxStep(c, t, a, now))
  {
    hide Order, Below, TxShape;
    if !a.CloseQueue? {
      hide TxStep, TxEnabled;
      TxFrame(c, s, t, a, now);
    }
  }

  lemma DownQueueKeeps(c: Config, s: nat, x: Ctl, t: TxEnd, a: TxAct, now: nat)
    requires c.Valid() && TxShape(c.n, s, t) && TxEnabled(c, t, a)
    requires DownQueueInv(c.n, s, x.hi, x.estSeen, x.dial.Ok?, x.serving, t) && (a.CloseQueue? ==> x.dial.Ok?)
    ensures DownQueueInv(c.n, s, x.hi, x.estSeen, x.dial.Ok?, x.serving, TxStep(c, t, a, now))
  {
    hide Order, Below, TxShape;
    if !a.CloseQueue? {
      hide TxStep, TxEnabled;
      TxFrame(c, s, t, a, now);
    }
  }

  lemma AgainQueueKeeps(c: Config, s: nat, x: Ctl, t: TxEnd, k: nat, a: TxAct, now: nat)
    requires c.Valid() && TxShape(c.n, s, t) && AgainEnabled(c, t, k, a)
    requires DownQueueInv(c.n, s, x.hi, x.estSeen, x.dial.Ok?, x.serving, t)
    ensures DownQueueInv(c.n, s, x.hi, x.estSeen, x.dial.Ok?, x.serving, AgainStep(c, t, k, a, now))
  {
    hide Order, Below, Equipped, Q.Ready;
  }

  /** SendPut writes the next chunk to the lane its position asks for. */
  lemma PutGoesToLane(c: Config, s: nat, t: TxEnd, now: nat)
    requires c.Valid() && TxInv(c.n, s, t) && TxEnabled(c, t, SendPut)
    ensures var w := |t.tx.dealt|;
      && w < |t.tx.line|
      && TxPost(c, t, now) == (Lane(w, c.n), Carry(Id(s, Lane(w, c.n)), Item(t.tx.line[w], now)))
      && TxStep(c, t, SendPut, now).tx.dealt == t.tx.dealt + [Item(t.tx.line[w], now)]
      && (forall k :: 0 <= k < w ==> !t.tx.dealt[k].chunk.eof)
  {
    hide Bytes, Lane, EofLast, SourceInv, Q.Ready;
    var w := |t.tx.dealt|;
    forall k | 0 <= k < w ensures !t.tx.dealt[k].chunk.eof {
      assert t.tx.line[..w][k] == t.tx.line[k];
    }
  }

  lemma DealtUnchanged(c: Config, t: TxEnd, a: TxAct, now: nat)
    requires TxEnabled(c, t, a) && !a.SendPut?
    ensures TxStep(c, t, a, now).tx.dealt == t.tx.dealt
  {
  }

  /** Any loop of the response direction writes under the id of the lane it writes to. */
  lemma LoopWritesOwn(c: Config, s: nat, t: TxEnd, now: nat)
    requires c.Valid() && TxShape(c.n, s, t) && TxEnabled(c, t, SendPut)
    ensures var p := TxPost(c, t, now);
      p.0 < c.n && p.1.Carry? && p.1.id == Id(s, p.0) && p.1.item.at == now
  {
    hide Q.Ready;
    assert Order(s, c.n)[t.tx.sender.i] == Id(s, t.tx.sender.i);
  }

  lemma PostDown(n: nat, s: nat, wires: seq<Wire>, lane: nat, m: Msg)
    requires DownWireInv(n, s, true, wires) && m.Carry? && m.id == Id(s, lane)
    ensures DownWireInv(n, s, true, Posted(wires, lane, m))
  {
  }

  lemma PutKeepsUp(c: Config, s: nat, v: Stream, now: nat)
    requires Always(c, s, v) && TxEnabled(c, v.b.up.t, SendPut)
    ensures var x, post := v.b.ctl, TxPost(c, v.b.up.t, now);
      UpWireInv(c.n, s, x.said, x.hi, x.est, x.estSeen, Posted(v.up, post.0, post.1))
  {
    hide UpWireInv, UpLinksInv, DownLinksInv, DownQueueInv, TxInv, TxShape, RxInv, RxShape, TxPost, WritersAre, Lane;
    var t := v.b.up.t;
    PutGoesToLane(c, s, t, now);
    assert Begun(t.tx);
    PostUp(c.n, s, v.b.ctl, v.b.ctl, v.up, Lane(|t.tx.dealt|, c.n), TxPost(c, t, now).1);
  }

  /** On the client at most one Send is ever launched, so no close there races. */
  lemma UpIsTimely(c: Config, s: nat, v: Stream, a: TxAct)
    requires Always(c, s, v)
    ensures Timely(v.b.up.t, a)
  {
    hide UpWireInv, DownWireInv, UpLinksInv, DownLinksInv, DownQueueInv, TxInv, TxShape, RxInv, RxShape;
  }

  lemma TxUpKeeps(c: Config, s: nat, v: Stream, a: TxAct, now: nat)
    requires Always(c, s, v) && Enabled(c, s, v, Tx_(Up, a))
    ensures Always(c, s, Step(c, s, v, Tx_(Up, a), now))
    ensures Ordered(c.n, s, v) ==> Ordered(c.n, s, Step(c, s, v, Tx_(Up, a), now))
  {
    hide UpWireInv, DownWireInv, UpLinksInv, DownLinksInv, UpQueueInv, DownQueueInv, TxInv, TxShape, RxInv, RxShape, TxPost, TxStep, TxEnabled;
    var e := v.b.up;
    UpIsTimely(c, s, v, a);
    TxKeeps(c, s, e.t, a, now);
    TxInvShape(c.n, s, e.t);
    UpQueueKeeps(c, s, v.b.ctl, e.t, a, now);
    if a.SendPut? {
      PutGoesToLane(c, s, e.t, now);
      PutKeepsUp(c, s, v, now);
      RxDeal(c.n, s, e.t.tx.dealt, Item(e.t.tx.line[|e.t.tx.dealt|], now), e.r, v.up);
    } else {
      DealtUnchanged(c, e.t, a, now);
    }
  }

  lemma SendingSeen(c: Config, s: nat, v: Stream)
    requires Always(c, s, v) && Begun(v.b.down.t.tx)
    ensures v.b.ctl.estSeen
  {
    hide UpWireInv, DownWireInv, UpLinksInv, DownLinksInv, UpQueueInv, TxInv, TxShape, RxInv, RxShape;
  }

  lemma TxDownKeeps(c: Config, s: nat, v: Stream, a: TxAct, now: nat)
    requires Always(c, s, v) && Enabled(c, s, v, Tx_(Down, a))
    ensures Always(c, s, Step(c, s, v, Tx_(Down, a), now))
    ensures Ordered(c.n, s, v) && Timely(v.b.down.t, a) ==> Ordered(c.n, s, Step(c, s, v, Tx_(Down, a), now))
  {
    hide UpWireInv, DownWireInv, UpLinksInv, DownLinksInv, UpQueueInv, DownQueueInv, TxInv, TxShape, RxInv, RxShape, TxPost, TxStep, TxEnabled;
    var e := v.b.down;
    TxShapeKeeps(c, s, e.t, a, now);
    DownQueueKeeps(c, s, v.b.ctl, e.t, a, now);
    if a.SendPut? {
      PutNeedsLoop(c, e.t);
      SendingSeen(c, s, v);
      LoopWritesOwn(c, s, e.t, now);
      PostDown(c.n, s, v.down, TxPost(c, e.t, now).0, TxPost(c, e.t, now).1);
    }
    if Ordered(c.n, s, v) && Timely(e.t, a) {
      TxKeeps(c, s, e.t, a, now);
      if a.SendPut? {
        PutGoesToLane(c, s, e.t, now);
        RxDeal(c.n, s, e.t.tx.dealt, Item(e.t.tx.line[|e.t.tx.dealt|], now), e.r, v.down);
      } else {
        DealtUnchanged(c, e.t, a, now);
      }
    }
  }

  lemma PutNeedsLoop(c: Config, t: TxEnd)
    requires TxEnabled(c, t, SendPut)
    ensures Begun(t.tx)
  {
  }

  /** A step of a further loop, which exists on the response direction only. */
  lemma AgainKeeps(c: Config, s: nat, v: Stream, d: Dir, k: nat, a: TxAct, now: nat)
    requires Always(c, s, v) && Enabled(c, s, v, Again(d, k, a))
    ensures Always(c, s, Step(c, s, v, Again(d, k, a), now)) && !Ordered(c.n, s, v)
  {
    hide UpWireInv, DownWireInv, UpLinksInv, DownLinksInv, UpQueueInv, DownQueueInv, TxInv, TxShape, RxInv, RxShape, TxPost, AgainStep, AgainEnabled;
    OneLoop(c, s, v, Again(d, k, a), Up);
    if Ordered(c.n, s, v) {
      OneLoop(c, s, v, Again(d, k, a), Down);
    }
    var t := v.b.down.t;
    AgainShapeKeeps(c, s, t, k, a, now);
    AgainQueueKeeps(c, s, v.b.ctl, t, k, a, now);
    if a.SendPut? {
      AgainPuts(c, s, t, k);
      SendingSeen(c, s, v);
      LoopWritesOwn(c, s, Focus(t, k), now);
      PostDown(c.n, s, v.down, TxPost(c, Focus(t, k), now).0, TxPost(c, Focus(t, k), now).1);
    }
  }

  lemma AgainPuts(c: Config, s: nat, t: TxEnd, k: nat)
    requires c.Valid() && TxShape(c.n, s, t) && AgainEnabled(c, t, k, SendPut)
    ensures k < |t.tx.extra| && TxEnabled(c, Focus(t, k), SendPut) && TxShape(c.n, s, Focus(t, k)) && Begun(t.tx)
  {
    hide Q.Ready, Equipped;
  }

  // ---- the merging loop --------------------------------------------------

  /** What the merge leaves alone in the hub. */
  lemma RxFrame(r: RxEnd, master: Id, a: RxAct)
    requires RxEnabled(r, a) && !a.CloseLinks?
    ensures var r' := RxStep(r, master, a);
      && r'.rx.removed == r.rx.removed && r'.rx.launches == r.rx.launches
      && r'.links.Keys == r.links.Keys
      && (forall id :: id in r.links ==>
            && r'.links[id].counter == r.links[id].counter
            && r'.links[id].sorted == r.links[id].sorted
            && r'.links[id].conn == r.links[id].conn)
  {
  }

  lemma UpLinksKeeps(n: nat, s: nat, x: Ctl, r: RxEnd, a: RxAct)
    requires n >= 1 && UpLinksInv(n, s, x.hi, x.estSeen, x.dial.Ok?, r) && RxEnabled(r, a) && x.hi <= Below(n)
    requires a.CloseLinks? ==> x.dial.Ok?
    ensures UpLinksInv(n, s, x.hi, x.estSeen, x.dial.Ok?, RxStep(r, Master(s), a))
  {
    hide Order, Below;
    CountedAll(x.hi, n);
    if !a.CloseLinks? {
      hide RxStep, RxEnabled;
      RxFrame(r, Master(s), a);
    }
  }

  lemma DownLinksKeeps(n: nat, s: nat, x: Ctl, r: RxEnd, a: RxAct)
    requires n >= 1 && DownLinksInv(n, s, x.added, x.linkStarted, r) && RxEnabled(r, a)
    requires a.CloseLinks? ==> x.added == n
    ensures DownLinksInv(n, s, x.added, x.linkStarted, RxStep(r, Master(s), a))
  {
    hide Order;
    if !a.CloseLinks? {
      hide RxStep, RxEnabled;
      RxFrame(r, Master(s), a);
    }
  }

  lemma GroupIsSorted(c: Config, s: nat, v: Stream, d: Dir)
    requires Always(c, s, v)
    ensures Sorted(c.n, s, v.b.At(d).r)
  {
    hide UpWireInv, DownWireInv, UpQueueInv, DownQueueInv, TxInv, TxShape, Lanes, MergerInv, ShutInv, RemovedInv, Order;
    assert v.b.ctl.hi == {} ==> |v.b.ctl.hi| == 0;
  }

  lemma DealtEnds(n: nat, s: nat, t: TxEnd)
    requires n >= 1 && TxInv(n, s, t)
    ensures DealtEofLast(t.tx.dealt)
  {
    hide Bytes, Lane, SourceInv, SenderInv, Q.Ready, ObjectInv;
    var tx := t.tx;
    forall k | 0 <= k < |tx.dealt| && tx.dealt[k].chunk.eof
      ensures k == |tx.dealt| - 1 && tx.dealt[k].chunk.data == []
    {
      assert tx.line[k].eof;
    }
  }

  lemma RxActKeeps(c: Config, s: nat, v: Stream, d: Dir, a: RxAct, now: nat)
    requires Always(c, s, v) && Enabled(c, s, v, Rx_(d, a))
    ensures Always(c, s, Step(c, s, v, Rx_(d, a), now))
    ensures Ordered(c.n, s, v) ==> Ordered(c.n, s, Step(c, s, v, Rx_(d, a), now))
  {
    hide UpWireInv, DownWireInv, UpLinksInv, DownLinksInv, UpQueueInv, DownQueueInv, TxInv, TxShape, RxInv, RxShape, RxStep, RxEnabled, Sorted;
    var e := v.b.At(d);
    GroupIsSorted(c, s, v, d);
    assert Below(v.b.ctl.said) <= Below(c.n);
    if d.Up? || Ordered(c.n, s, v) {
      DealtEnds(c.n, s, e.t);
      RxKeeps(c.n, s, e.t.tx.dealt, e.r, a, v.Wires(d));
    }
    if d.Up? {
      UpLinksKeeps(c.n, s, v.b.ctl, e.r, a);
    } else {
      DownLinksKeeps(c.n, s, v.b.ctl, e.r, a);
      RxShapeKeeps(c.n, s, e.r, a);
    }
  }

  /** Every step keeps what always holds; and the order of the responses, as long as
      closes of their queue come in time. */
  lemma StepKeeps(c: Config, s: nat, v: Stream, a: Act, now: nat)
    requires Always(c, s, v) && Enabled(c, s, v, a)
    ensures Always(c, s, Step(c, s, v, a, now))
    ensures Ordered(c.n, s, v) && OwnTimely(v.b, a) ==> Ordered(c.n, s, Step(c, s, v, a, now))
  {
    hide Always, Ordered, Step, Enabled;
    match a
    case Say => SayKeeps(c, s, v, now);
    case Register => RegisterKeeps(c, s, v, now);
    case SendEst => SendEstKeeps(c, s, v, now);
    case StartQueue => StartQueueKeeps(c, s, v, now);
    case FindLink => FindLinkKeeps(c, s, v, now);
    case StartLink => StartLinkKeeps(c, s, v, now);
    case Connect(ok) => ConnectKeeps(c, s, v, ok, now);
    case Serve => ServeKeeps(c, s, v, now);
    case Tx_(d, x) => if d.Up? { TxUpKeeps(c, s, v, x, now); } else { TxDownKeeps(c, s, v, x, now); }
    case Again(d, k, x) => AgainKeeps(c, s, v, d, k, x, now);
    case Rx_(d, x) => RxActKeeps(c, s, v, d, x, now);
    case Receive(d, lane) => ReceiveKeeps(c, s, v, d, lane, now);
    case Discard(d, lane) => DiscardKeeps(c, s, v, d, lane, now);
  }
}
