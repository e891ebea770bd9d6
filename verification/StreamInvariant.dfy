/** The invariant of one stream: what is registered where during set-up, tied to
    the data invariants of both directions, and its preservation by every step. */
module StreamInvariant {
  import opened Data
  import opened RoundRobin
  import opened Counting
  import opened Protocol
  import opened Stream
  import Q = QueueHubModel
  import L = LinkHubModel

  // ---- the invariant -----------------------------------------------------

  ghost predicate CtlInv(n: nat, c: Ctl) {
    && c.added <= c.said <= c.added + 1 && c.said <= n
    && (c.est ==> c.added == n)
    && (c.queueStarted ==> c.est) && (c.linkFound ==> c.queueStarted) && (c.linkStarted ==> c.linkFound)
    && c.hi <= Below(c.said)
    && (c.estSeen ==> c.est) && (!c.dial.NotYet? ==> c.estSeen) && (c.serving ==> c.dial.Ok?)
  }

  ghost predicate OkUp(n: nat, s: nat, m: Msg, j: nat) {
    match m
    case Hi(id, master, _) => id == Id(s, j) && master == Master(s)
    case Est(id, sorted, _) => j == 0 && id == Master(s) && sorted == Order(s, n)
    case Carry(id, _) => id == Id(s, j)
  }

  ghost predicate NoHi(w: Wire) {
    forall k :: 0 <= k < |w| ==> !w[k].Hi?
  }

  ghost function Ests(w: Wire): nat {
    if w == [] then 0 else (if w[0].Est? then 1 else 0) + Ests(w[1..])
  }

  lemma {:induction false} EstsAppend(w: Wire, m: Msg)
    ensures Ests(w + [m]) == Ests(w) + if m.Est? then 1 else 0
  {
    if w == [] {
      assert w + [m] == [m] && [m][1..] == [];
    } else {
      assert (w + [m])[1..] == w[1..] + [m];
      EstsAppend(w[1..], m);
    }
  }

  /** The Hi of a lane is the first message on it and is dispatched once. */
  ghost predicate HiInv(said: nat, hi: set<nat>, w: Wire, j: nat) {
    if j < said && j !in hi then w != [] && w[0].Hi? && NoHi(w[1..]) else NoHi(w)
  }

  ghost predicate UpWireInv(n: nat, s: nat, said: nat, hi: set<nat>, est: bool, estSeen: bool, wires: seq<Wire>) {
    && |wires| == n
    && (forall j, k :: 0 <= j < n && 0 <= k < |wires[j]| ==> OkUp(n, s, wires[j][k], j))
    && (forall j :: 0 <= j < n ==> HiInv(said, hi, wires[j], j))
    && (forall j :: said <= j < n ==> wires[j] == [])
    && (n > 0 ==> Ests(wires[0]) == if est && !estSeen then 1 else 0)
  }

  ghost predicate DownWireInv(n: nat, s: nat, estSeen: bool, wires: seq<Wire>) {
    && |wires| == n
    && (forall j, k :: 0 <= j < n && 0 <= k < |wires[j]| ==> wires[j][k].Carry? && wires[j][k].id == Id(s, j))
    && (forall j :: 0 <= j < n && wires[j] != [] ==> estSeen)
  }

  ghost predicate OwnKeys(n: nat, s: nat, links: Hub) {
    forall id :: id in links ==> id.stream == s && id.lane < n
  }

  /** Server links: while the group is in the hub the counter counts the
      dispatched Hi messages, and Send has been launched exactly when the
      connection is there and all n lanes have been counted. */
  ghost predicate UpLinksInv(n: nat, s: nat, hi: set<nat>, estSeen: bool, dialed: bool, r: RxEnd) {
    var m, links := Master(s), r.links;
    && OwnKeys(n, s, links)
    && (!r.rx.removed ==>
          && (forall j :: 0 < j < n ==> (Id(s, j) in links <==> j in hi))
          && (m in links <==> hi != {} || estSeen)
          && (m in links ==>
                && links[m].counter == |hi|
                && links[m].sorted == (if estSeen then Order(s, n) else [])
                && links[m].conn == dialed)
          && r.rx.launches == (if dialed && |hi| == n then 1 else 0))
    && (r.rx.removed ==>
          && dialed
          && (m in links ==> !links[m].conn && links[m].sorted == [])
          && r.rx.launches <= 1
          && (r.rx.launches == 1 ==> hi == Below(n)))
  }

  /** Client links: registered by transData itself, launched by StartLink only. */
  ghost predicate DownLinksInv(n: nat, s: nat, added: nat, started: bool, r: RxEnd) {
    var m, links := Master(s), r.links;
    && OwnKeys(n, s, links)
    && r.rx.launches == (if started then 1 else 0)
    && (!r.rx.removed ==>
          && (forall j :: 0 <= j < n ==> (Id(s, j) in links <==> j < added))
          && (m in links ==>
                && links[m].sorted == (if started then Order(s, n) else [])
                && links[m].conn == started))
    && (r.rx.removed ==> added == n && m !in links)
  }

  ghost predicate WritersAre(s: nat, q: Q.Queue, lanes: set<nat>) {
    && (forall id :: id in q.writers <==> id.stream == s && id.lane in lanes)
    && (forall j :: j in lanes ==> Id(s, j) in q.writers && q.writers[Id(s, j)] == j)
  }

  ghost predicate UpQueueInv(n: nat, s: nat, added: nat, started: bool, t: TxEnd) {
    && (t.tx.gone.None? ==>
          && (t.queue.Some? <==> added > 0)
          && (t.queue.Some? ==>
                && WritersAre(s, t.queue.value, Below(added))
                && t.queue.value.sorted == if started then Order(s, n) else []))
    && (t.tx.gone.Some? ==> t.queue.None? && added == n)
    && t.tx.pending + (if Begun(t.tx) then 1 else 0) == (if started then 1 else 0)
    && (t.tx.source.Off? <==> !started)
  }

  ghost predicate DownQueueInv(n: nat, s: nat, hi: set<nat>, estSeen: bool, dialed: bool, serving: bool, t: TxEnd) {
    && (t.tx.gone.None? ==>
          && (t.queue.Some? <==> hi != {} || estSeen)
          && (t.queue.Some? ==>
                && WritersAre(s, t.queue.value, hi)
                && t.queue.value.sorted == if estSeen then Order(s, n) else []))
    && (t.tx.gone.Some? ==>
          dialed && (t.queue.Some? ==> t.queue.value.sorted == [] && t.queue.value.writers != map[]))
    && (t.tx.pending > 0 || Begun(t.tx) ==> hi == Below(n) && estSeen)
    && (t.tx.gone.None? && serving && hi == Below(n) ==> t.tx.pending > 0 || Begun(t.tx))
    && (t.tx.source.Off? <==> !serving)
  }

  /** What holds of a stream in every run, whatever its closes do: the set-up, the whole
      request direction, and the shape of the response direction. */
  ghost predicate Always(c: Config, s: nat, v: Stream) {
    var n, x := c.n, v.b.ctl;
    && c.Valid()
    && CtlInv(n, x)
    && UpWireInv(n, s, x.said, x.hi, x.est, x.estSeen, v.up) && DownWireInv(n, s, x.estSeen, v.down)
    && UpLinksInv(n, s, x.hi, x.estSeen, x.dial.Ok?, v.b.up.r)
    && DownLinksInv(n, s, x.added, x.linkStarted, v.b.down.r)
    && UpQueueInv(n, s, x.added, x.queueStarted, v.b.up.t)
    && DownQueueInv(n, s, x.hi, x.estSeen, x.dial.Ok?, x.serving, v.b.down.t)
    && TxInv(n, s, v.b.up.t) && TxShape(n, s, v.b.down.t)
    && |v.up| == |v.down| == n
    && RxInv(n, s, v.b.up.t.tx.dealt, v.b.up.r, v.up) && RxShape(n, s, v.b.down.r)
  }

  /** The data of the response direction is in order. */
  ghost predicate Ordered(n: nat, s: nat, v: Stream) {
    && n >= 1 && |v.down| == n
    && TxInv(n, s, v.b.down.t) && RxInv(n, s, v.b.down.t.tx.dealt, v.b.down.r, v.down)
  }

  ghost predicate Inv(c: Config, s: nat, v: Stream) {
    Always(c, s, v) && Ordered(c.n, s, v)
  }

  /** What a statement about one direction needs. */
  ghost predicate Sound(c: Config, s: nat, v: Stream, d: Dir) {
    Always(c, s, v) && (d.Down? ==> Ordered(c.n, s, v))
  }

  /** A sound direction has one loop, so no further loop can step there. */
  lemma OneLoop(c: Config, s: nat, v: Stream, a: Act, d: Dir)
    requires Sound(c, s, v, d) && Enabled(c, s, v, a)
    ensures !(a.Again? && a.dir == d)
  {
    hide UpWireInv, DownWireInv, UpLinksInv, DownLinksInv, UpQueueInv, DownQueueInv, RxInv, RxShape, SourceInv, SenderInv, ObjectInv;
    WasEnabled(c, s, v, a);
  }

  lemma NewStreamInv(c: Config, s: nat)
    requires c.Valid()
    ensures Inv(c, s, NewStream(c.n))
  {
    assert Below(0) == {};
  }

  // ---- how the receiving side survives set-up steps ----------------------

  lemma ShapeHubChange(n: nat, s: nat, r: RxEnd, r': RxEnd)
    requires RxShape(n, s, r)
    requires r'.rx == r.rx || (r.rx.merger.Dormant? && r'.rx == Launch(r.rx, Order(s, n)) && (r.rx.removed ==> Master(s) !in r'.links))
    requires r.rx.removed && !r.rx.merger.Dormant? ==> r'.links.Keys == r.links.Keys
    ensures RxShape(n, s, r')
  {
  }

  /** A hub change that keeps every buffer, with or without the launch. */
  lemma RxHubChange(n: nat, s: nat, dealt: seq<Item>, r: RxEnd, r': RxEnd, wires: seq<Wire>, wires': seq<Wire>)
    requires n >= 1 && |wires| == |wires'| == n && RxInv(n, s, dealt, r, wires)
    requires r'.rx == r.rx || (r.rx.merger.Dormant? && r'.rx == Launch(r.rx, Order(s, n)) && (r.rx.removed ==> Master(s) !in r'.links))
    requires forall id :: L.Waiting(r'.links, id) == L.Waiting(r.links, id)
    requires r.links.Keys <= r'.links.Keys
    requires NoneDone(r.links) ==> NoneDone(r'.links)
    requires r.rx.removed && !r.rx.merger.Dormant? ==> r'.links.Keys == r.links.Keys
    requires forall j :: 0 <= j < n ==> Items(wires'[j]) == Items(wires[j])
    ensures RxInv(n, s, dealt, r', wires')
  {
    if Flowing(r.rx) {
      forall j | 0 <= j < n ensures LaneInv(n, s, dealt, r.rx.popped, r'.links, wires'[j], j) {
        assert LaneInv(n, s, dealt, r.rx.popped, r.links, wires[j], j);
      }
    }
  }

  /** Dealing an item: the item joins the share of its lane only. */
  lemma StripeDeal(n: nat, dealt: seq<Item>, x: Item, p: nat, j: nat)
    requires n >= 1 && p <= |dealt|
    ensures Stripe((dealt + [x])[p..], p, j, n)
         == Stripe(dealt[p..], p, j, n) + if j == Lane(|dealt|, n) then [x] else []
  {
    hide Lane, Stripe;
    assert (dealt + [x])[p..] == dealt[p..] + [x];
    StripeAppend(dealt[p..], x, p, j, n);
  }

  lemma LanesDeal(n: nat, s: nat, dealt: seq<Item>, x: Item, p: nat, links: Hub, wires: seq<Wire>)
    requires n >= 1 && |wires| == n && p <= |dealt| && Lanes(n, s, dealt, p, links, wires)
    ensures var lane := Lane(|dealt|, n);
      Lanes(n, s, dealt + [x], p, links, Posted(wires, lane, Carry(Id(s, lane), x)))
  {
    hide Lane, Stripe, Items;
    var lane := Lane(|dealt|, n);
    var m := Carry(Id(s, lane), x);
    var wires' := Posted(wires, lane, m);
    forall j | 0 <= j < n ensures LaneInv(n, s, dealt + [x], p, links, wires'[j], j) {
      assert LaneInv(n, s, dealt, p, links, wires[j], j);
      StripeDeal(n, dealt, x, p, j);
      if j == lane {
        ItemsAppend(wires[j], m);
        Assoc(L.Waiting(links, Id(s, j)), Items(wires[j]), [x]);
      }
    }
  }

  lemma RxDeal(n: nat, s: nat, dealt: seq<Item>, x: Item, r: RxEnd, wires: seq<Wire>)
    requires n >= 1 && |wires| == n && RxInv(n, s, dealt, r, wires)
    requires forall k :: 0 <= k < |dealt| ==> !dealt[k].chunk.eof
    ensures var lane := Lane(|dealt|, n);
      RxInv(n, s, dealt + [x], r, Posted(wires, lane, Carry(Id(s, lane), x)))
  {
    hide Lane, Stripe, Lanes, NoneDone, Cleared;
    var p := r.rx.popped;
    SentExtend(dealt, x, p);
    if p > 0 { SentExtend(dealt, x, p - 1); }
    SentExtend(dealt, x, |dealt|);
    if Flowing(r.rx) {
      LanesDeal(n, s, dealt, x, p, r.links, wires);
    }
    StripeDeal(n, dealt, x, p, Lane(p, n));
  }

  /** A data message moves from its wire to its link: the share is the same. */
  lemma LanesReceive(n: nat, s: nat, dealt: seq<Item>, p: nat, links: Hub, wires: seq<Wire>, lane: nat, x: Item)
    requires n >= 1 && |wires| == n && p <= |dealt| && Lanes(n, s, dealt, p, links, wires) && NoneDone(links)
    requires lane < n && wires[lane] != [] && wires[lane][0] == Carry(Id(s, lane), x) && Id(s, lane) in links
    ensures Lanes(n, s, dealt, p, Accept(links, Id(s, lane), x), Dropped(wires, lane))
  {
    hide Lane, Stripe;
    var links', wires' := Accept(links, Id(s, lane), x), Dropped(wires, lane);
    forall j | 0 <= j < n
      ensures L.Waiting(links', Id(s, j)) + Items(wires'[j]) == L.Waiting(links, Id(s, j)) + Items(wires[j])
    {
      if j == lane {
        assert Items(wires[j]) == [x] + Items(wires'[j]);
        Assoc(L.Waiting(links, Id(s, j)), [x], Items(wires'[j]));
      }
    }
    forall j | 0 <= j < n ensures LaneInv(n, s, dealt, p, links', wires'[j], j) {
      assert LaneInv(n, s, dealt, p, links, wires[j], j);
    }
  }

  lemma NothingAfterShut(n: nat, s: nat, dealt: seq<Item>, r: RxEnd, wires: seq<Wire>, lane: nat)
    requires n >= 1 && |wires| == n && RxInv(n, s, dealt, r, wires) && Flowing(r.rx)
    requires lane < n && wires[lane] != [] && wires[lane][0].Carry?
    ensures !r.rx.merger.Over?
  {
    hide Lane, MergerInv, RemovedInv;
    assert LaneInv(n, s, dealt, r.rx.popped, r.links, wires[lane], lane);
    assert Items(wires[lane]) != [];
    assert r.rx.popped == |dealt| ==> dealt[r.rx.popped..] == [];
  }

  lemma RxReceive(n: nat, s: nat, dealt: seq<Item>, r: RxEnd, wires: seq<Wire>, lane: nat, x: Item)
    requires n >= 1 && |wires| == n && RxInv(n, s, dealt, r, wires)
    requires lane < n && wires[lane] != [] && wires[lane][0] == Carry(Id(s, lane), x)
    requires !r.rx.removed ==> Id(s, lane) in r.links
    ensures RxInv(n, s, dealt, r.(links := Accept(r.links, Id(s, lane), x)), Dropped(wires, lane))
  {
    var links' := Accept(r.links, Id(s, lane), x);
    assert links'.Keys == r.links.Keys;
    if Flowing(r.rx) {
      NothingAfterShut(n, s, dealt, r, wires, lane);
      LanesReceive(n, s, dealt, r.rx.popped, r.links, wires, lane, x);
    }
  }

  /** After removal nothing depends on the wires. */
  lemma RxDiscard(n: nat, s: nat, dealt: seq<Item>, r: RxEnd, wires: seq<Wire>, lane: nat)
    requires n >= 1 && |wires| == n && RxInv(n, s, dealt, r, wires) && r.rx.removed && Head(wires, lane).Some?
    ensures RxInv(n, s, dealt, r, Dropped(wires, lane))
  {
  }
}
