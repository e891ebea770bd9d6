/** Any number of streams over the same n websockets. Each direction has one
    queue hub, one link hub and n shared FIFO wires; each wire has one reader. A
    step of the whole system is a step of one stream and leaves every other
    stream's view of the system as it was. */
module Mux {
  import opened Data
  import opened RoundRobin
  import opened Protocol
  import opened Stream
  import Q = QueueHubModel
  import L = LinkHubModel

  datatype Plane = Plane(queues: Q.Queues, links: Hub, wires: seq<Wire>, txs: seq<Tx>, rxs: seq<Rx>)

  /** `clock` numbers the steps; streams are numbered in order of opening. */
  datatype System = System(clock: nat, up: Plane, down: Plane, ctls: seq<Ctl>) {
    function At(d: Dir): Plane { if d.Up? then up else down }
    function With(d: Dir, p: Plane): System { if d.Up? then this.(up := p) else this.(down := p) }
  }

  datatype Event = Open | On(s: nat, a: Act)

  predicate WellFormed(c: Config, g: System) {
    && |g.up.wires| == |g.down.wires| == c.n
    && |g.up.txs| == |g.up.rxs| == |g.down.txs| == |g.down.rxs| == |g.ctls|
  }

  function EndsOf(p: Plane, s: nat): Ends
    requires s < |p.txs| && s < |p.rxs|
  {
    Ends(TxEnd(Q.Entry(p.queues, Master(s)), p.txs[s]), RxEnd(p.links, p.rxs[s]))
  }

  function BothOf(g: System, s: nat): Both
    requires s < |g.up.txs| && s < |g.up.rxs| && s < |g.down.txs| && s < |g.down.rxs| && s < |g.ctls|
  {
    Both(EndsOf(g.up, s), EndsOf(g.down, s), g.ctls[s])
  }

  function PutEnds(p: Plane, s: nat, e: Ends): Plane
    requires s < |p.txs| && s < |p.rxs|
  {
    p.(queues := if e.t.queue.Some? then p.queues[Master(s) := e.t.queue.value] else p.queues - {Master(s)},
       links := e.r.links, txs := p.txs[s := e.t.tx], rxs := p.rxs[s := e.r.rx])
  }

  function SystemHead(g: System, a: Act): Option<Msg> {
    if a.Receive? || a.Discard? then Head(g.At(a.dir).wires, a.lane) else None
  }

  /** A reader dispatches the head of its wire for the stream the id names. */
  predicate CanFire(c: Config, g: System, e: Event)
    requires WellFormed(c, g)
  {
    match e
    case Open => true
    case On(s, a) =>
      && s < |g.ctls|
      && (SystemHead(g, a).Some? ==> SystemHead(g, a).value.id.stream == s)
      && CoreEnabled(c, s, BothOf(g, s), a, SystemHead(g, a))
  }

  function Fire(c: Config, g: System, e: Event): System
    requires WellFormed(c, g) && CanFire(c, g, e)
  {
    match e
    case Open =>
      g.(up := g.up.(txs := g.up.txs + [NEW_TX], rxs := g.up.rxs + [NEW_RX]),
         down := g.down.(txs := g.down.txs + [NEW_TX], rxs := g.down.rxs + [NEW_RX]),
         ctls := g.ctls + [NEW_CTL])
    case On(s, a) =>
      var b := Core(c, s, BothOf(g, s), a, g.clock, SystemHead(g, a));
      var g1 := System(g.clock + 1, PutEnds(g.up, s, b.up), PutEnds(g.down, s, b.down), g.ctls[s := b.ctl]);
      if a.Receive? || a.Discard? then
        g1.With(a.dir, g1.At(a.dir).(wires := Dropped(g.At(a.dir).wires, a.lane)))
      else match CorePost(c, s, BothOf(g, s), a, g.clock)
           case None => g1
           case Some((d, lane, m)) => g1.With(d, g1.At(d).(wires := Posted(g.At(d).wires, lane, m)))
  }

  /** The event is no close of the response queue of s, or one that comes in time. */
  predicate TimelyEvent(c: Config, g: System, e: Event, s: nat)
    requires WellFormed(c, g)
  {
    e.On? && e.s == s < |g.ctls| ==> OwnTimely(BothOf(g, s), e.a)
  }

  function Start(c: Config): System {
    var p := Plane(map[], map[], seq(c.n, _ => []), [], []);
    System(0, p, p, [])
  }

  // ---- one stream's view -------------------------------------------------

  function Own(links: Hub, s: nat): Hub {
    map id | id in links && id.stream == s :: links[id]
  }

  function Filter(w: Wire, s: nat): Wire {
    if w == [] then [] else (if w[0].id.stream == s then [w[0]] else []) + Filter(w[1..], s)
  }

  function Mine(wires: seq<Wire>, s: nat): (r: seq<Wire>)
    ensures |r| == |wires|
    ensures forall j :: 0 <= j < |wires| ==> r[j] == Filter(wires[j], s)
  {
    seq(|wires|, j requires 0 <= j < |wires| => Filter(wires[j], s))
  }

  function OwnEnds(e: Ends, s: nat): Ends {
    e.(r := e.r.(links := Own(e.r.links, s)))
  }

  function OwnBoth(b: Both, s: nat): Both {
    Both(OwnEnds(b.up, s), OwnEnds(b.down, s), b.ctl)
  }

  function View(c: Config, g: System, s: nat): Stream
    requires WellFormed(c, g) && s < |g.ctls|
  {
    Stream(OwnBoth(BothOf(g, s), s), Mine(g.up.wires, s), Mine(g.down.wires, s))
  }

  // ---- hub operations of one stream touch that stream only ---------------

  lemma OwnAdd(m: Hub, id: Id, master: Id, s: nat)
    requires id.stream == master.stream
    ensures Own(L.AddLink(m, id, master), s)
         == if id.stream == s then L.AddLink(Own(m, s), id, master) else Own(m, s)
  {
  }

  lemma OwnSort(m: Hub, master: Id, sorted: seq<Id>, s: nat)
    ensures Own(L.SortLink(m, master, sorted), s)
         == if master.stream == s then L.SortLink(Own(m, s), master, sorted) else Own(m, s)
  {
  }

  lemma OwnConnect(m: Hub, master: Id, s: nat)
    ensures Own(L.ConnectLink(m, master), s)
         == if master.stream == s then L.ConnectLink(Own(m, s), master) else Own(m, s)
  {
  }

  lemma OwnStatus(m: Hub, id: Id, status: Status, s: nat)
    ensures Own(L.SetStatus(m, id, status), s)
         == if id.stream == s then L.SetStatus(Own(m, s), id, status) else Own(m, s)
  {
  }

  lemma OwnAccept(m: Hub, id: Id, x: Item, s: nat)
    ensures Own(Accept(m, id, x), s) == if id.stream == s then Accept(Own(m, s), id, x) else Own(m, s)
  {
  }

  lemma OwnPop(m: Hub, id: Id, s: nat)
    requires id in m && m[id].buffer != []
    ensures Own(L.PopLink(m, id), s) == if id.stream == s then L.PopLink(Own(m, s), id) else Own(m, s)
  {
  }

  predicate Inside(ids: seq<Id>, s: nat) {
    forall k :: 0 <= k < |ids| ==> ids[k].stream == s
  }

  lemma OwnRemove(m: Hub, master: Id, s: nat)
    requires master in m ==> Inside(m[master].sorted, master.stream)
    ensures Own(L.RemoveGroup(m, master), s)
         == if master.stream == s then L.RemoveGroup(Own(m, s), master) else Own(m, s)
  {
  }

  // ---- wires -------------------------------------------------------------

  lemma {:induction false} FilterAppend(w: Wire, m: Msg, s: nat)
    ensures Filter(w + [m], s) == Filter(w, s) + if m.id.stream == s then [m] else []
  {
    var all, last := w + [m], if m.id.stream == s then [m] else [];
    if w == [] {
      assert all == [m] && all[1..] == [];
      assert Filter(all[1..], s) == [];
    } else {
      assert all[0] == w[0] && all[1..] == w[1..] + [m];
      FilterAppend(w[1..], m, s);
      var first := if w[0].id.stream == s then [w[0]] else [];
      assert Filter(all, s) == first + Filter(all[1..], s);
      Assoc(first, Filter(w[1..], s), last);
    }
  }

  lemma MinePosted(wires: seq<Wire>, lane: nat, m: Msg, s: nat)
    ensures Mine(Posted(wires, lane, m), s)
         == if m.id.stream == s then Posted(Mine(wires, s), lane, m) else Mine(wires, s)
  {
    hide Filter;
    var l := Mine(Posted(wires, lane, m), s);
    var r := if m.id.stream == s then Posted(Mine(wires, s), lane, m) else Mine(wires, s);
    forall j | 0 <= j < |wires| ensures l[j] == r[j] {
      if j == lane {
        FilterAppend(wires[lane], m, s);
      }
    }
    assert l == r;
  }

  lemma MineDropped(wires: seq<Wire>, lane: nat, s: nat)
    requires Head(wires, lane).Some?
    ensures wires[lane][0].id.stream == s ==>
      && Head(Mine(wires, s), lane) == Head(wires, lane)
      && Mine(Dropped(wires, lane), s) == Dropped(Mine(wires, s), lane)
    ensures wires[lane][0].id.stream != s ==> Mine(Dropped(wires, lane), s) == Mine(wires, s)
  {
    var w := wires[lane];
    var l := Mine(Dropped(wires, lane), s);
    if w[0].id.stream == s {
      assert Filter(w, s) == [w[0]] + Filter(w[1..], s);
      assert Filter(w, s)[1..] == Filter(w[1..], s);
      assert l == Dropped(Mine(wires, s), lane);
    } else {
      assert Filter(w, s) == [] + Filter(w[1..], s) == Filter(w[1..], s);
      forall j | 0 <= j < |wires| ensures l[j] == Mine(wires, s)[j] {
      }
      assert l == Mine(wires, s);
    }
  }

  // ---- a step on the shared hubs is a step on the stream's own part ------

  /** The ids a step may look up belong to the stream. */
  predicate RxInside(r: RxEnd, s: nat) {
    && (!r.rx.merger.Dormant? ==> Inside(r.rx.order, s))
    && (Master(s) in r.links ==> Inside(r.links[Master(s)].sorted, s))
  }

  predicate HeadInside(head: Option<Msg>, s: nat) {
    head.Some? ==>
      && head.value.id.stream == s
      && (head.value.Hi? ==> head.value.master.stream == s)
  }

  function OwnRx(r: RxEnd, s: nat): RxEnd { r.(links := Own(r.links, s)) }

  lemma RxLocal(r: RxEnd, s: nat, a: RxAct, o: nat)
    requires RxEnabled(r, a) && RxInside(r, s)
    ensures RxEnabled(OwnRx(r, s), a)
    ensures OwnRx(RxStep(r, Master(s), a), s) == RxStep(OwnRx(r, s), Master(s), a)
    ensures o != s ==> Own(RxStep(r, Master(s), a).links, o) == Own(r.links, o)
  {
    hide Own, L.RemoveGroup, L.SetStatus, L.PopLink;
    var m := r.rx.merger;
    OwnAgrees(r.links, s);
    if a.CloseLinks? {
      OwnRemove(r.links, Master(s), s);
      OwnRemove(r.links, Master(s), o);
    } else if a.MergeRead? {
      if m.orphan.None? {
        OwnPop(r.links, r.rx.order[m.j], s);
        OwnPop(r.links, r.rx.order[m.j], o);
      }
    } else {
      OwnStatus(r.links, Master(s), StaDone, s);
      OwnStatus(r.links, Master(s), StaDone, o);
      OwnStatus(r.links, Master(s), StaSend, s);
      OwnStatus(r.links, Master(s), StaSend, o);
    }
  }

  lemma OwnAgrees(m: Hub, s: nat)
    ensures forall id :: id in Own(m, s) <==> id in m && id.stream == s
    ensures forall id :: id in Own(m, s) ==> Own(m, s)[id] == m[id]
  {
  }

  lemma LaunchLocal(r: RxEnd, s: nat, o: nat)
    ensures OwnRx(TryLaunchLinks(r, Master(s)), s) == TryLaunchLinks(OwnRx(r, s), Master(s))
    ensures Own(TryLaunchLinks(r, Master(s)).links, o) == Own(r.links, o)
  {
    hide Own;
    OwnAgrees(r.links, s);
  }

  /** Enabledness and effect of a step depend on the stream's own links only, and
      no other stream's links change. */
  lemma CoreLocal(c: Config, s: nat, b: Both, a: Act, now: nat, head: Option<Msg>, o: nat)
    requires CoreEnabled(c, s, b, a, head) && HeadInside(head, s)
    requires RxInside(b.up.r, s) && RxInside(b.down.r, s)
    requires head.Some? && head.value.Hi? ==> head.value.master == Master(s)
    ensures CoreEnabled(c, s, OwnBoth(b, s), a, head)
    ensures OwnBoth(Core(c, s, b, a, now, head), s) == Core(c, s, OwnBoth(b, s), a, now, head)
    ensures o != s ==>
      && Own(Core(c, s, b, a, now, head).up.r.links, o) == Own(b.up.r.links, o)
      && Own(Core(c, s, b, a, now, head).down.r.links, o) == Own(b.down.r.links, o)
  {
    hide Own, Accept, RxStep, RxEnabled, TxStep, TxEnabled, AgainStep, AgainEnabled;
    match a
    case Rx_(d, x) => RxLocal(b.At(d).r, s, x, o);
    case Receive(d, lane) => ReceiveLocal(c, s, b, d, lane, now, head, o);
    case Discard(_, _) =>
    case Tx_(_, _) =>
    case Again(_, _, _) =>
    case _ => SetupLocal(c, s, b, a, now, head, o);
  }

  predicate IsSetup(a: Act) {
    !a.Rx_? && !a.Tx_? && !a.Again? && !a.Receive? && !a.Discard?
  }

  lemma SetupLocal(c: Config, s: nat, b: Both, a: Act, now: nat, head: Option<Msg>, o: nat)
    requires CoreEnabled(c, s, b, a, head) && IsSetup(a)
    ensures CoreEnabled(c, s, OwnBoth(b, s), a, head)
    ensures OwnBoth(Core(c, s, b, a, now, head), s) == Core(c, s, OwnBoth(b, s), a, now, head)
    ensures o != s ==>
      && Own(Core(c, s, b, a, now, head).up.r.links, o) == Own(b.up.r.links, o)
      && Own(Core(c, s, b, a, now, head).down.r.links, o) == Own(b.down.r.links, o)
  {
    hide Own, L.AddLink, L.SortLink, L.ConnectLink, Accept, RxStep, RxEnabled, TxStep, TxEnabled, TryLaunchLinks, TryLaunch;
    OwnAgrees(b.down.r.links, s);
    match a
    case Register =>
      var id := Id(s, b.ctl.added);
      OwnAdd(b.down.r.links, id, Master(s), s);
      OwnAdd(b.down.r.links, id, Master(s), o);
      LaunchLocal(b.down.r.(links := L.AddLink(b.down.r.links, id, Master(s))), s, o);
    case StartLink =>
      var m := L.ConnectLink(b.down.r.links, Master(s));
      OwnConnect(b.down.r.links, Master(s), s);
      OwnConnect(b.down.r.links, Master(s), o);
      OwnSort(m, Master(s), Order(s, c.n), s);
      OwnSort(m, Master(s), Order(s, c.n), o);
    case Connect(_) =>
      OwnConnect(b.up.r.links, Master(s), s);
      OwnConnect(b.up.r.links, Master(s), o);
      LaunchLocal(b.up.r.(links := L.ConnectLink(b.up.r.links, Master(s))), s, o);
    case _ =>
  }

  lemma ReceiveLocal(c: Config, s: nat, b: Both, d: Dir, lane: nat, now: nat, head: Option<Msg>, o: nat)
    requires CoreEnabled(c, s, b, Receive(d, lane), head) && HeadInside(head, s)
    requires head.value.Hi? ==> head.value.master == Master(s)
    ensures CoreEnabled(c, s, OwnBoth(b, s), Receive(d, lane), head)
    ensures var b1 := Core(c, s, b, Receive(d, lane), now, head);
      && OwnBoth(b1, s) == Core(c, s, OwnBoth(b, s), Receive(d, lane), now, head)
      && (o != s ==> Own(b1.up.r.links, o) == Own(b.up.r.links, o) && Own(b1.down.r.links, o) == Own(b.down.r.links, o))
  {
    hide Own, L.AddLink, L.SortLink, Accept, TryLaunchLinks;
    OwnAgrees(b.up.r.links, s);
    OwnAgrees(b.down.r.links, s);
    match head.value
    case Hi(id, master, _) =>
      OwnAdd(b.up.r.links, id, master, s);
      OwnAdd(b.up.r.links, id, master, o);
      LaunchLocal(b.up.r.(links := L.AddLink(b.up.r.links, id, master)), s, o);
    case Est(id, sorted, _) =>
      OwnSort(b.up.r.links, id, sorted, s);
      OwnSort(b.up.r.links, id, sorted, o);
    case Carry(id, x) =>
      OwnAccept(b.At(d).r.links, id, x, s);
      OwnAccept(b.At(d).r.links, id, x, o);
  }
}
