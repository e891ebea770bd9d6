/** No deadlock: although every websocket has one reader, which stops at a full
    link buffer, a calm system with nothing left to do has delivered everything. */
module Progress {
  import opened Data
  import opened RoundRobin
  import opened Counting
  import opened Protocol
  import opened Stream
  import opened StreamInvariant
  import opened StreamSteps
  import opened Mux
  import opened MuxInvariant
  import opened Inputs
  import opened Guarantees
  import opened Calm
  import opened Stamps
  import Q = QueueHubModel
  import L = LinkHubModel

  /** Stream s of a system is in order, and calm so far; the others may be in any state. */
  ghost predicate CalmStream(c: Config, g: System, s: nat) {
    && SystemAlways(c, g) && s < |g.ctls|
    && Inv(c, s, View(c, g, s)) && CalmInv(View(c, g, s))
  }

  ghost predicate CalmSystem(c: Config, g: System) {
    && SystemAlways(c, g) && StampInv(g)
    && (forall s :: 0 <= s < |g.ctls| ==> CalmStream(c, g, s))
  }

  /** The event is none of stream s, or a calm one. */
  predicate OwnCalm(e: Event, s: nat) {
    e.On? && e.s == s ==> CalmAct(e.a)
  }

  ghost predicate CalmReaches(c: Config, evs: seq<Event>, g: System) {
    Reaches(c, evs, g) && forall e <- evs :: CalmEvent(e)
  }

  /** A run in which nothing but calm events happen to stream s. */
  ghost predicate OwnCalmReaches(c: Config, evs: seq<Event>, g: System, s: nat) {
    Reaches(c, evs, g) && forall e <- evs :: OwnCalm(e, s)
  }

  lemma CalmStreamKept(c: Config, g: System, e: Event, s: nat)
    requires SystemAlways(c, g) && CanFire(c, g, e) && OwnCalm(e, s) && (s < |g.ctls| ==> CalmStream(c, g, s))
    ensures var g' := Fire(c, g, e); SystemAlways(c, g') && (s < |g'.ctls| ==> CalmStream(c, g', s))
  {
    hide Always, Ordered, CalmInv, CanFire, Step, Enabled, View;
    EventKeeps(c, g, e);
    if s < |g.ctls| {
      EventView(c, g, e, s);
      if e.On? && e.s == s {
        CalmStep(c, s, View(c, g, s), e.a, g.clock);
        StepKeeps(c, s, View(c, g, s), e.a, g.clock);
      }
    } else if e.On? {
      FireShape(c, g, e.s, e.a);
    } else {
      OpenView(c, g);
      NewStreamInv(c, |g.ctls|);
      NewStreamCalm(c.n);
    }
  }

  lemma NewStreamCalm(n: nat)
    ensures CalmInv(NewStream(n))
  {
  }

  lemma {:induction false} CalmStreamLeads(c: Config, g: System, evs: seq<Event>, g': System, s: nat)
    requires SystemAlways(c, g) && Leads(c, g, evs, g') && (forall e <- evs :: OwnCalm(e, s))
    requires s < |g.ctls| ==> CalmStream(c, g, s)
    ensures SystemAlways(c, g') && (s < |g'.ctls| ==> CalmStream(c, g', s))
    decreases |evs|
  {
    hide SystemAlways, CalmStream, Fire, CanFire, OwnCalm;
    if evs != [] {
      CalmStreamKept(c, g, evs[0], s);
      CalmStreamLeads(c, Fire(c, g, evs[0]), evs[1..], g', s);
    }
  }

  lemma OwnCalmReachable(c: Config, evs: seq<Event>, g: System, s: nat)
    requires c.Valid() && OwnCalmReaches(c, evs, g, s) && s < |g.ctls|
    ensures CalmStream(c, g, s)
  {
    hide SystemAlways, CalmStream, Fire, CanFire, OwnCalm;
    StartAlways(c);
    CalmStreamLeads(c, Start(c), evs, g, s);
  }

  lemma CalmEventKeeps(c: Config, g: System, e: Event)
    requires CalmSystem(c, g) && CanFire(c, g, e) && CalmEvent(e)
    ensures CalmSystem(c, Fire(c, g, e))
  {
    hide Always, CalmStream, CanFire, Fire, StampInv;
    EventKeeps(c, g, e);
    StampsKept(c, g, e);
    var g' := Fire(c, g, e);
    forall s | 0 <= s < |g'.ctls| ensures CalmStream(c, g', s) {
      CalmStreamKept(c, g, e, s);
    }
  }

  lemma {:induction false} CalmLeads(c: Config, g: System, evs: seq<Event>, g': System)
    requires CalmSystem(c, g) && Leads(c, g, evs, g') && forall e <- evs :: CalmEvent(e)
    ensures CalmSystem(c, g')
    decreases |evs|
  {
    hide CalmSystem, Fire, CanFire, CalmEvent;
    if evs != [] {
      CalmEventKeeps(c, g, evs[0]);
      CalmLeads(c, Fire(c, g, evs[0]), evs[1..], g');
    }
  }

  lemma CalmReachable(c: Config, evs: seq<Event>, g: System)
    requires c.Valid() && CalmReaches(c, evs, g)
    ensures CalmSystem(c, g)
  {
    hide Fire, CanFire, SystemAlways, CalmStream, CalmEvent;
    StartAlways(c);
    CalmLeads(c, Start(c), evs, g);
  }

  lemma StreamOf(c: Config, g: System, s: nat)
    requires CalmStream(c, g, s)
    ensures SystemAlways(c, g) && WellFormed(c, g) && c.Valid() && s < |g.ctls|
  {
    hide Always, Ordered, CalmInv, View;
  }

  lemma CalmOf(c: Config, g: System, s: nat)
    requires CalmSystem(c, g) && s < |g.ctls|
    ensures CalmStream(c, g, s) && SystemAlways(c, g) && WellFormed(c, g) && c.Valid()
  {
    hide CalmStream, Always, View;
  }

  // ---- nothing left to do ------------------------------------------------

  /** No internal event of this stream can fire. */
  ghost predicate Still(c: Config, g: System, s: nat)
    requires WellFormed(c, g)
  {
    forall a: Act :: Internal(a) ==> !CanFire(c, g, On(s, a))
  }

  /** No internal event can fire. */
  ghost predicate Quiet(c: Config, g: System)
    requires WellFormed(c, g)
  {
    forall s: nat :: Still(c, g, s)
  }

  lemma QuietIsStill(c: Config, g: System, s: nat)
    requires WellFormed(c, g) && Quiet(c, g)
    ensures Still(c, g, s)
  {
    hide Still;
  }

  /** The steps of its stream that bring a message at the head of lane l towards its
      destination: its reception, a step of the merge that makes room in its link,
      or a step of the set-up the merge still waits for. */
  predicate Advances(a: Act, d: Dir, l: nat) {
    || a == Receive(d, l)
    || (a.Rx_? && a.dir == d && Internal(a))
    || (d.Up? && a == Connect(true))
    || (d.Down? && (a == StartQueue || a == FindLink || a == StartLink))
  }

  ghost predicate Stuck(c: Config, g: System, s: nat, d: Dir, l: nat)
    requires WellFormed(c, g)
  {
    forall a: Act :: Advances(a, d, l) ==> !CanFire(c, g, On(s, a))
  }

  lemma StillIsStuck(c: Config, g: System, s: nat, d: Dir, l: nat)
    requires WellFormed(c, g) && Still(c, g, s)
    ensures Stuck(c, g, s, d, l)
  {
    hide CanFire;
  }

  /** A step a stream could take alone it can take in the system, reception aside. */
  lemma LocalFires(c: Config, g: System, s: nat, a: Act)
    requires SystemAlways(c, g) && s < |g.ctls| && !a.Receive? && !a.Discard?
    requires Enabled(c, s, View(c, g, s), a)
    ensures CanFire(c, g, On(s, a))
  {
    hide Always, Ordered, Own, TxEnabled;
    OwnAgrees(g.up.links, s);
    OwnAgrees(g.down.links, s);
    InsideWhole(c, g, s);
  }

  lemma QuietLocal(c: Config, g: System, s: nat, a: Act)
    requires SystemAlways(c, g) && Still(c, g, s) && s < |g.ctls| && Internal(a) && !a.Receive?
    ensures !Enabled(c, s, View(c, g, s), a)
  {
    hide Always, Ordered, CanFire, Enabled, View;
    if Enabled(c, s, View(c, g, s), a) {
      LocalFires(c, g, s, a);
    }
  }

  lemma StuckLocal(c: Config, g: System, s: nat, a: Act, d: Dir, l: nat)
    requires SystemAlways(c, g) && Stuck(c, g, s, d, l) && s < |g.ctls| && Advances(a, d, l) && !a.Receive?
    ensures !Enabled(c, s, View(c, g, s), a)
  {
    hide Always, Ordered, CanFire, Enabled, View;
    if Enabled(c, s, View(c, g, s), a) {
      LocalFires(c, g, s, a);
    }
  }

  /** The client has finished setting up. */
  lemma QuietClient(c: Config, g: System, s: nat)
    requires CalmStream(c, g, s) && Still(c, g, s)
    ensures var x := g.ctls[s]; x.said == x.added == c.n && x.est && x.queueStarted && x.linkStarted
  {
    hide SystemAlways, CalmStream, Still;
    ClientParts(c, g, s);
    StreamOf(c, g, s);
    QuietLocal(c, g, s, Say);
    QuietLocal(c, g, s, Register);
    QuietLocal(c, g, s, SendEst);
    QuietLocal(c, g, s, StartQueue);
    QuietLocal(c, g, s, FindLink);
    QuietLocal(c, g, s, StartLink);
  }

  lemma ClientParts(c: Config, g: System, s: nat)
    requires CalmStream(c, g, s)
    ensures SystemAlways(c, g) && c.Valid()
    ensures var v := View(c, g, s);
      && CtlInv(c.n, v.b.ctl)
      && (v.b.ctl.added > 0 ==> v.b.up.t.queue.Some? && Master(s) in v.b.down.r.links)
  {
    hide UpWireInv, DownWireInv, UpLinksInv, DownQueueInv, TxInv, RxInv, StampInv;
  }

  lemma QuietRx(c: Config, g: System, s: nat, d: Dir, x: RxAct, l: nat)
    requires SystemAlways(c, g) && Stuck(c, g, s, d, l) && s < |g.ctls| && Internal(Rx_(d, x))
    ensures !RxEnabled(View(c, g, s).b.At(d).r, x)
  {
    hide SystemAlways, Stuck, RxEnabled, View;
    StuckLocal(c, g, s, Rx_(d, x), d, l);
  }

  lemma QuietTx(c: Config, g: System, s: nat, d: Dir, x: TxAct)
    requires SystemAlways(c, g) && Still(c, g, s) && s < |g.ctls| && Internal(Tx_(d, x))
    ensures !TxEnabled(c, View(c, g, s).b.At(d).t, x)
  {
    hide SystemAlways, Still, TxEnabled, View;
    QuietLocal(c, g, s, Tx_(d, x));
  }

  lemma StuckMerger(n: nat, s: nat, dealt: seq<Item>, r: RxEnd, wires: seq<Wire>)
    requires n >= 1 && |wires| == n && RxInv(n, s, dealt, r, wires) && CalmRx(r.rx)
    requires !RxEnabled(r, MergeBegin) && !RxEnabled(r, MergeRound) && !RxEnabled(r, MergeFind)
    requires !RxEnabled(r, MergeRead) && !RxEnabled(r, MergeWrite)
    ensures r.rx.merger.Dormant? || r.rx.merger.Over? || r.rx.merger.Read?
    ensures r.rx.merger.Read? ==>
      r.rx.merger.orphan.None? && r.rx.merger.j == Lane(r.rx.popped, n) && L.Waiting(r.links, Id(s, r.rx.merger.j)) == []
  {
    hide Lanes, Stripe, Sent, ShutInv, RemovedInv;
  }

  /** The merge of a stream, if launched, waits on an empty link. */
  lemma QuietMerger(c: Config, g: System, s: nat, d: Dir, l: nat)
    requires CalmStream(c, g, s) && Stuck(c, g, s, d, l)
    ensures var r := View(c, g, s).b.At(d).r;
      && (r.rx.merger.Dormant? || r.rx.merger.Over? || r.rx.merger.Read?)
      && (r.rx.merger.Read? ==>
            r.rx.merger.orphan.None? && c.n >= 1 && r.rx.merger.j == Lane(r.rx.popped, c.n)
            && L.Waiting(r.links, Id(s, r.rx.merger.j)) == [])
  {
    hide SystemAlways, CalmStream, Stuck, View, RxEnabled, RxInv, CalmRx, Lane, L.Waiting;
    MergerParts(c, g, s, d);
    StreamOf(c, g, s);
    QuietRx(c, g, s, d, MergeBegin, l);
    QuietRx(c, g, s, d, MergeRound, l);
    QuietRx(c, g, s, d, MergeFind, l);
    QuietRx(c, g, s, d, MergeRead, l);
    QuietRx(c, g, s, d, MergeWrite, l);
    var v := View(c, g, s);
    StuckMerger(c.n, s, v.b.At(d).t.tx.dealt, v.b.At(d).r, v.Wires(d));
  }

  lemma MergerParts(c: Config, g: System, s: nat, d: Dir)
    requires CalmStream(c, g, s)
    ensures SystemAlways(c, g) && c.Valid() && WellFormed(c, g)
    ensures var r, w, dealt := View(c, g, s).b.At(d).r, View(c, g, s).Wires(d), View(c, g, s).b.At(d).t.tx.dealt;
      && CalmRx(r.rx) && |w| == c.n && RxInv(c.n, s, dealt, r, w)
  {
    hide UpWireInv, DownWireInv, UpLinksInv, DownLinksInv, UpQueueInv, DownQueueInv, TxInv, RxInv, StampInv, CalmRx, CalmTx;
  }

  // ---- the oldest message ------------------------------------------------

  /** A lane whose head is no younger than any other head. */
  lemma {:induction false} OldestHead(wires: seq<Wire>, k: nat) returns (l: nat)
    requires k <= |wires| && exists j :: 0 <= j < k && wires[j] != []
    ensures l < k && wires[l] != []
    ensures forall j :: 0 <= j < k && wires[j] != [] ==> wires[l][0].Moment() <= wires[j][0].Moment()
  {
    if forall j :: 0 <= j < k - 1 ==> wires[j] == [] {
      l := k - 1;
    } else {
      l := OldestHead(wires, k - 1);
      if wires[k - 1] != [] && wires[k - 1][0].Moment() < wires[l][0].Moment() {
        l := k - 1;
      }
    }
  }

  lemma {:induction false} FilterMember(w: Wire, s: nat, m: Msg)
    requires m in Filter(w, s)
    ensures m in w && m.id.stream == s
  {
    if m != w[0] || w[0].id.stream != s {
      FilterMember(w[1..], s, m);
    }
  }

  lemma {:induction false} ItemsMember(w: Wire, x: Item) returns (m: Msg)
    requires x in Items(w)
    ensures m in w && m.Carry? && m.item == x
  {
    if w[0].Carry? && w[0].item == x {
      m := w[0];
    } else {
      m := ItemsMember(w[1..], x);
    }
  }

  lemma HeadIsOlder(w: Wire, clock: nat, m: Msg)
    requires WireSorted(w, clock) && m in w
    ensures w != [] && w[0].Moment() <= m.Moment()
  {
  }

  /** From its second element on, a lane's share lies strictly later in line. */
  lemma {:induction false} StripeMember(xs: seq<Item>, off: nat, j: nat, n: nat, x: Item)
    requires n >= 1 && x in Stripe(xs, off, j, n)
    ensures x in xs
  {
    if Lane(off, n) != j || x != xs[0] {
      StripeMember(xs[1..], off + 1, j, n, x);
    }
  }

  lemma StripeLater(dealt: seq<Item>, clock: nat, p: nat, j: nat, n: nat, i: nat)
    requires n >= 1 && p <= |dealt| && DealtSorted(dealt, clock)
    requires 1 <= i < |Stripe(dealt[p..], p, j, n)|
    ensures p < |dealt| && dealt[p].at < Stripe(dealt[p..], p, j, n)[i].at
    ensures Stripe(dealt[p..], p, j, n)[i] in dealt
  {
    var xs := dealt[p..];
    var rest := Stripe(xs[1..], p + 1, j, n);
    var x := Stripe(xs, p, j, n)[i];
    assert x in rest;
    StripeMember(xs[1..], p + 1, j, n, x);
    var k :| 0 <= k < |xs[1..]| && xs[1..][k] == x;
    assert dealt[p + 1 + k] == x;
  }

  /** The reader of a calm stream's message can only be stopped by a full link. */
  lemma BlockedReader(c: Config, g: System, d: Dir, l: nat)
    requires Head(g.At(d).wires, l).Some? && CalmStream(c, g, g.At(d).wires[l][0].id.stream)
    requires Stuck(c, g, g.At(d).wires[l][0].id.stream, d, l)
    ensures var m := g.At(d).wires[l][0];
      && m.Carry? && m.id.stream < |g.ctls|
      && var v := View(c, g, m.id.stream);
         && m.id == Id(m.id.stream, l) && Head(v.Wires(d), l) == Some(m)
         && L.Waiting(v.b.At(d).r.links, m.id) != []
  {
    hide Always, Ordered, Filter;
    var m := g.At(d).wires[l][0];
    var s := m.id.stream;
    MineDropped(g.At(d).wires, l, s);
    assert !CanFire(c, g, On(s, Receive(d, l)));
    DataFindsLink(c, s, View(c, g, s), d, l);
    OwnAgrees(g.At(d).links, s);
  }

  /** While a chunk of a stream is stuck behind its full link, the chunk its merge waits
      for is buffered or on the wire of its own lane. */
  lemma WaitsElsewhere(n: nat, s: nat, dealt: seq<Item>, r: RxEnd, wires: seq<Wire>, l: nat)
    requires n >= 1 && |wires| == n && RxInv(n, s, dealt, r, wires) && CalmRx(r.rx)
    requires l < n && L.Waiting(r.links, Id(s, l)) != []
    ensures !r.rx.merger.Over? && r.rx.popped < |dealt|
    ensures L.Waiting(r.links, Id(s, Lane(r.rx.popped, n))) == [] ==>
      dealt[r.rx.popped] in Items(wires[Lane(r.rx.popped, n)])
  {
    hide MergerInv, RemovedInv, Sent, Lane;
    var p := r.rx.popped;
    var j := Lane(p, n);
    assert LaneInv(n, s, dealt, p, r.links, wires[l], l);
    assert LaneInv(n, s, dealt, p, r.links, wires[j], j);
    assert dealt[p..] != [];
    assert dealt[p..][0] == dealt[p];
    assert Stripe(dealt[p..], p, j, n)[0] == dealt[p];
  }

  /** The chunk the merge of stream s waits for is older than the head of lane l
      and sits on another wire; so that wire has an older head. */
  lemma OlderElsewhere(n: nat, s: nat, clock: nat, dealt: seq<Item>, r: RxEnd, wires: seq<Wire>, l: nat)
    requires n >= 1 && |wires| == n && RxInv(n, s, dealt, r, wires) && CalmRx(r.rx) && DealtSorted(dealt, clock)
    requires l < n && wires[l] != [] && wires[l][0].Carry? && L.Waiting(r.links, Id(s, l)) != []
    ensures wires[l][0].item in dealt && !r.rx.merger.Over? && r.rx.popped < |dealt|
    ensures dealt[r.rx.popped].at < wires[l][0].Moment()
    ensures L.Waiting(r.links, Id(s, Lane(r.rx.popped, n))) == [] ==>
      dealt[r.rx.popped] in Items(wires[Lane(r.rx.popped, n)])
  {
    hide MergerInv, RemovedInv, Sent, Lane;
    var p, here := r.rx.popped, L.Waiting(r.links, Id(s, l));
    WaitsElsewhere(n, s, dealt, r, wires, l);
    assert LaneInv(n, s, dealt, p, r.links, wires[l], l);
    assert Items(wires[l])[0] == wires[l][0].item;
    assert (here + Items(wires[l]))[|here|] == Items(wires[l])[0];
    StripeLater(dealt, clock, p, l, n, |here|);
  }

  /** Every set-up message still on a wire has an older head than the data. */
  lemma SetupIsOlder(g: System, s: nat, j: nat, e: Msg, k: nat)
    requires StampInv(g) && j < |g.up.wires| && s < |g.up.txs| && k < |g.up.txs[s].dealt|
    requires e in Filter(g.up.wires[j], s) && !e.Carry?
    ensures g.up.wires[j] != [] && g.up.wires[j][0].Moment() < g.up.txs[s].dealt[k].at
  {
    FilterMember(g.up.wires[j], s, e);
    assert Older(g.up.wires[j], s, g.up.txs[s].dealt) && WireSorted(g.up.wires[j], g.clock);
    HeadIsOlder(g.up.wires[j], g.clock, e);
  }

  lemma {:induction false} FindEst(w: Wire) returns (m: Msg)
    requires Ests(w) > 0
    ensures m in w && m.Est?
  {
    if w[0].Est? { m := w[0]; } else { m := FindEst(w[1..]); }
  }

  lemma UpWireParts(c: Config, g: System, s: nat)
    requires CalmSystem(c, g) && s < |g.ctls|
    ensures SystemAlways(c, g) && StampInv(g) && c.Valid() && g.ctls[s].hi <= Below(g.ctls[s].said)
    ensures var x := g.ctls[s]; UpWireInv(c.n, s, x.said, x.hi, x.est, x.estSeen, Mine(g.up.wires, s))
  {
    hide UpWireInv, DownWireInv, UpLinksInv, DownLinksInv, UpQueueInv, DownQueueInv, TxInv, RxInv, CalmInv, StampInv, Mine;
    assert CalmStream(c, g, s);
  }

  lemma AnnouncedBeforeData(c: Config, g: System, s: nat)
    requires CalmStream(c, g, s) && g.up.txs[s].dealt != []
    ensures g.ctls[s].said == c.n && g.ctls[s].est
  {
    hide UpWireInv, DownWireInv, UpLinksInv, DownLinksInv, UpQueueInv, DownQueueInv, TxInv, RxInv, StampInv, CalmInv;
    if !g.ctls[s].est {
      NoDataBeforeEst(c, s, View(c, g, s));
    }
  }

  /** Before data of a stream can be the oldest head, its set-up is through. */
  lemma SetupThrough(c: Config, g: System, s: nat, k: nat)
    requires CalmSystem(c, g) && s < |g.ctls| && k < |g.up.txs[s].dealt|
    requires forall j :: 0 <= j < c.n && g.up.wires[j] != [] ==> g.up.txs[s].dealt[k].at <= g.up.wires[j][0].Moment()
    ensures g.ctls[s].hi == Below(c.n) && g.ctls[s].estSeen
  {
    hide SystemAlways, CalmSystem, CalmStream, StampInv, Filter;
    CalmOf(c, g, s);
    AnnouncedBeforeData(c, g, s);
    UpWireParts(c, g, s);
    var x, mine := g.ctls[s], Mine(g.up.wires, s);
    forall j | 0 <= j < c.n ensures j in x.hi {
      assert HiInv(x.said, x.hi, mine[j], j);
      if j !in x.hi {
        SetupIsOlder(g, s, j, mine[j][0], k);
      }
    }
    if !x.estSeen {
      var e := FindEst(mine[0]);
      SetupIsOlder(g, s, 0, e, k);
    }
  }

  lemma LaunchParts(c: Config, g: System, s: nat)
    requires CalmStream(c, g, s)
    ensures SystemAlways(c, g) && c.Valid() && WellFormed(c, g)
    ensures var b, x := View(c, g, s).b, g.ctls[s];
      && b.ctl == x && !x.dial.Failed? && (x.serving ==> x.dial.Ok?)
      && (x.dial.Ok? && x.hi == Below(c.n) ==> !b.up.r.rx.merger.Dormant?)
      && (x.linkStarted ==> !b.down.r.rx.merger.Dormant?)
  {
    hide UpWireInv, DownWireInv, UpQueueInv, DownQueueInv, TxInv, Lanes, MergerInv, ShutInv, RemovedInv, StampInv;
    var v := View(c, g, s);
    BelowSize(c.n);
  }

  lemma MergerLaunched(c: Config, g: System, s: nat, d: Dir, l: nat)
    requires CalmStream(c, g, s) && Stuck(c, g, s, d, l)
    requires if d.Up? then g.ctls[s].hi == Below(c.n) && g.ctls[s].estSeen else g.ctls[s].est
    ensures !View(c, g, s).b.At(d).r.rx.merger.Dormant?
  {
    hide CalmStream, SystemAlways, Stuck, View;
    LaunchParts(c, g, s);
    StreamOf(c, g, s);
    if d.Up? {
      StuckLocal(c, g, s, Connect(true), d, l);
    } else {
      ClientParts(c, g, s);
      StuckLocal(c, g, s, StartQueue, d, l);
      StuckLocal(c, g, s, FindLink, d, l);
      StuckLocal(c, g, s, StartLink, d, l);
    }
  }

  lemma ViewParts(c: Config, g: System, s: nat, d: Dir)
    requires CalmSystem(c, g) && s < |g.ctls|
    ensures WellFormed(c, g) && View(c, g, s).Wires(d) == Mine(g.At(d).wires, s)
    ensures View(c, g, s).b.At(d).t.tx == g.At(d).txs[s]
    ensures DealtSorted(g.At(d).txs[s].dealt, g.clock)
    ensures forall j :: 0 <= j < c.n ==> WireSorted(g.At(d).wires[j], g.clock)
  {
    hide Always, Ordered, CalmInv, Mine, WireSorted, DealtSorted;
  }

  lemma ShapeOf(c: Config, g: System)
    requires CalmSystem(c, g)
    ensures SystemAlways(c, g) && WellFormed(c, g) && c.Valid()
  {
    hide Always, Ordered, CalmInv, StampInv;
  }

  /** Lane l of direction d has a head, and no other head of that direction is older. */
  ghost predicate Oldest(g: System, d: Dir, l: nat) {
    && Head(g.At(d).wires, l).Some?
    && forall i :: 0 <= i < |g.At(d).wires| && g.At(d).wires[i] != [] ==>
         g.At(d).wires[l][0].Moment() <= g.At(d).wires[i][0].Moment()
  }

  /** No cyclic wait: the oldest message of a direction can always be advanced. */
  lemma OldestCanMove(c: Config, g: System, d: Dir, l: nat)
    requires CalmSystem(c, g) && Oldest(g, d, l)
    ensures !Stuck(c, g, g.At(d).wires[l][0].id.stream, d, l)
  {
    var s := g.At(d).wires[l][0].id.stream;
    hide CalmSystem, CalmStream, SystemAlways, Stuck, View, L.Waiting;
    ShapeOf(c, g);
    if Stuck(c, g, s, d, l) {
      HeadStreamExists(c, g, d, l);
      CalmOf(c, g, s);
      BlockedReader(c, g, d, l);
      ViewParts(c, g, s, d);
      BlockedIsLaunched(c, g, d, l, s);
      var j := LaneWaitedFor(c, g, d, l, s);
    }
  }

  /** The lane with the oldest message of both directions. */
  lemma OldestOfAll(g: System) returns (d: Dir, l: nat)
    requires exists e: Dir, j :: 0 <= j < |g.At(e).wires| && g.At(e).wires[j] != []
    ensures Oldest(g, d, l)
    ensures forall e: Dir, i :: 0 <= i < |g.At(e).wires| && g.At(e).wires[i] != [] ==>
      g.At(d).wires[l][0].Moment() <= g.At(e).wires[i][0].Moment()
  {
    var e: Dir, j :| 0 <= j < |g.At(e).wires| && g.At(e).wires[j] != [];
    d := e;
    l := OldestHead(g.At(e).wires, |g.At(e).wires|);
    var o := if e.Up? then Down else Up;
    if exists i :: 0 <= i < |g.At(o).wires| && g.At(o).wires[i] != [] {
      var k := OldestHead(g.At(o).wires, |g.At(o).wires|);
      if g.At(o).wires[k][0].Moment() < g.At(d).wires[l][0].Moment() {
        d, l := o, k;
      }
    }
  }

  /** Progress in every reachable calm state: as long as any message is on a wire, the
      oldest one of all has an enabled step of its stream that advances it. */
  lemma OldestAdvances(c: Config, evs: seq<Event>, g: System) returns (d: Dir, l: nat, a: Act)
    requires c.Valid() && CalmReaches(c, evs, g)
    requires exists e: Dir, j :: 0 <= j < |g.At(e).wires| && g.At(e).wires[j] != []
    ensures WellFormed(c, g) && Oldest(g, d, l)
    ensures forall e: Dir, i :: 0 <= i < |g.At(e).wires| && g.At(e).wires[i] != [] ==>
      g.At(d).wires[l][0].Moment() <= g.At(e).wires[i][0].Moment()
    ensures Advances(a, d, l) && CanFire(c, g, On(g.At(d).wires[l][0].id.stream, a))
  {
    hide CalmReaches, CalmSystem, CanFire, Advances;
    CalmReachable(c, evs, g);
    ShapeOf(c, g);
    d, l := OldestOfAll(g);
    OldestCanMove(c, g, d, l);
    a :| Advances(a, d, l) && CanFire(c, g, On(g.At(d).wires[l][0].id.stream, a));
  }

  /** So if nothing can move, no message is on any wire. */
  lemma WiresEmpty(c: Config, g: System, d: Dir)
    requires CalmSystem(c, g) && Quiet(c, g)
    ensures forall j :: 0 <= j < |g.At(d).wires| ==> g.At(d).wires[j] == []
  {
    hide CalmSystem, SystemAlways, Quiet, Still, Stuck, View, L.Waiting;
    ShapeOf(c, g);
    var wires: seq<Wire> := g.At(d).wires;
    if exists j :: 0 <= j < |wires| && wires[j] != [] {
      var l := OldestHead(wires, |wires|);
      QuietIsStill(c, g, wires[l][0].id.stream);
      StillIsStuck(c, g, wires[l][0].id.stream, d, l);
      OldestCanMove(c, g, d, l);
    }
  }

  lemma EstBeforeResponse(c: Config, g: System, l: nat, s: nat)
    requires CalmStream(c, g, s) && Head(Mine(g.down.wires, s), l).Some?
    ensures g.ctls[s].est
  {
    hide UpWireInv, UpLinksInv, DownLinksInv, UpQueueInv, DownQueueInv, TxInv, RxInv, StampInv, CalmInv;
  }

  /** A stream whose data is the oldest head has been launched. */
  lemma BlockedIsLaunched(c: Config, g: System, d: Dir, l: nat, s: nat)
    requires CalmSystem(c, g) && Stuck(c, g, s, d, l) && Head(g.At(d).wires, l).Some? && s < |g.ctls|
    requires Head(Mine(g.At(d).wires, s), l) == Some(g.At(d).wires[l][0]) && g.At(d).wires[l][0].Carry?
    requires L.Waiting(View(c, g, s).b.At(d).r.links, Id(s, l)) != []
    requires forall i :: 0 <= i < |g.At(d).wires| && g.At(d).wires[i] != [] ==>
      g.At(d).wires[l][0].Moment() <= g.At(d).wires[i][0].Moment()
    ensures !View(c, g, s).b.At(d).r.rx.merger.Dormant?
  {
    hide CalmSystem, CalmStream, SystemAlways, Stuck, View, CalmRx, RxInv, Filter, Stripe, L.Waiting, Items, Lane, WireSorted, DealtSorted;
    CalmOf(c, g, s);
    MergerParts(c, g, s, d);
    ViewParts(c, g, s, d);
    var dealt := g.At(d).txs[s].dealt;
    OlderElsewhere(c.n, s, g.clock, dealt, View(c, g, s).b.At(d).r, Mine(g.At(d).wires, s), l);
    if d.Up? {
      var k :| 0 <= k < |dealt| && dealt[k] == g.At(d).wires[l][0].item;
      SetupThrough(c, g, s, k);
    }
    if d.Down? {
      EstBeforeResponse(c, g, l, s);
    }
    MergerLaunched(c, g, s, d, l);
  }

  /** The chunk a launched stream waits for, while a later one of its chunks is
      stuck at the head of lane l, is on a wire whose head is older still. */
  lemma LaneWaitedFor(c: Config, g: System, d: Dir, l: nat, s: nat) returns (j: nat)
    requires CalmSystem(c, g) && Stuck(c, g, s, d, l) && Head(g.At(d).wires, l).Some? && s < |g.ctls|
    requires Head(Mine(g.At(d).wires, s), l) == Some(g.At(d).wires[l][0]) && g.At(d).wires[l][0].Carry?
    requires L.Waiting(View(c, g, s).b.At(d).r.links, Id(s, l)) != []
    requires !View(c, g, s).b.At(d).r.rx.merger.Dormant?
    ensures j < |g.At(d).wires| && g.At(d).wires[j] != []
    ensures g.At(d).wires[j][0].Moment() < g.At(d).wires[l][0].Moment()
  {
    hide CalmSystem, CalmStream, SystemAlways, Stuck, View, CalmRx, RxInv, Filter, Stripe, L.Waiting, Items, Lane, WireSorted, DealtSorted;
    CalmOf(c, g, s);
    MergerParts(c, g, s, d);
    ViewParts(c, g, s, d);
    var wires: seq<Wire> := g.At(d).wires;
    var r, dealt := View(c, g, s).b.At(d).r, g.At(d).txs[s].dealt;
    OlderElsewhere(c.n, s, g.clock, dealt, r, Mine(wires, s), l);
    QuietMerger(c, g, s, d, l);
    j := Lane(r.rx.popped, c.n);
    var e := ItemsMember(Mine(wires, s)[j], dealt[r.rx.popped]);
    FilterMember(wires[j], s, e);
    HeadIsOlder(wires[j], g.clock, e);
  }

  // ---- everything delivered ----------------------------------------------

  lemma StuckSender(c: Config, s: nat, t: TxEnd)
    requires c.Valid() && TxInv(c.n, s, t) && CalmTx(t) && t.queue.Some?
    requires !TxEnabled(c, t, SrcPush) && !TxEnabled(c, t, SendBegin) && !TxEnabled(c, t, SendCheck)
    requires !TxEnabled(c, t, SendTake) && !TxEnabled(c, t, SendPut)
    requires Begun(t.tx) || t.tx.pending > 0
    ensures |t.tx.dealt| == |t.tx.line| && Bytes(t.tx.line) == t.tx.src && !t.tx.source.Pushing?
  {
    hide Lane, Q.Ready;
    var tx := t.tx;
    if tx.sender.Ended? {
      assert tx.line[|tx.dealt| - 1].eof;
    }
  }

  lemma DrainedMerger(n: nat, s: nat, dealt: seq<Item>, r: RxEnd, wires: seq<Wire>)
    requires n >= 1 && |wires| == n && RxInv(n, s, dealt, r, wires) && CalmRx(r.rx)
    requires forall j :: 0 <= j < n ==> wires[j] == []
    requires r.rx.merger.Over? || r.rx.merger.Read?
    requires r.rx.merger.Read? ==>
      r.rx.merger.orphan.None? && r.rx.merger.j == Lane(r.rx.popped, n) && L.Waiting(r.links, Id(s, r.rx.merger.j)) == []
    ensures r.rx.out == Sent(dealt, |dealt|) && (r.rx.merger.Read? ==> r.rx.popped == |dealt|)
  {
    hide RemovedInv, Sent, Lane;
    if r.rx.merger.Read? {
      var p, j := r.rx.popped, r.rx.merger.j;
      assert LaneInv(n, s, dealt, p, r.links, wires[j], j);
      assert Items(wires[j]) == [];
      assert Stripe(dealt[p..], p, j, n) == [];
    }
  }

  lemma SenderParts(c: Config, g: System, s: nat, d: Dir)
    requires CalmStream(c, g, s)
    ensures SystemAlways(c, g) && c.Valid() && WellFormed(c, g)
    ensures var t, x := View(c, g, s).b.At(d).t, g.ctls[s];
      && TxInv(c.n, s, t) && CalmTx(t)
      && (d.Up? && x.queueStarted && x.added == c.n ==> t.queue.Some? && (Begun(t.tx) || t.tx.pending > 0))
      && (d.Down? && x.serving && x.hi == Below(c.n) && x.estSeen ==> t.queue.Some? && (Begun(t.tx) || t.tx.pending > 0))
  {
    hide UpWireInv, DownWireInv, UpLinksInv, DownLinksInv, TxInv, RxInv, StampInv, CalmRx;
  }

  /** With the request wires empty, the server has seen the whole set-up. */
  lemma QuietServer(c: Config, g: System, s: nat)
    requires CalmSystem(c, g) && Quiet(c, g) && s < |g.ctls|
    ensures var x := g.ctls[s]; x.hi == Below(c.n) && x.estSeen && x.serving
  {
    hide CalmSystem, CalmStream, SystemAlways, Quiet, Still, View;
    ShapeOf(c, g);
    QuietIsStill(c, g, s);
    CalmOf(c, g, s);
    LaunchParts(c, g, s);
    QuietClient(c, g, s);
    UpWireParts(c, g, s);
    WiresEmpty(c, g, Up);
    assert g.At(Up) == g.up;
    EmptyMeansSeen(c, s, g.ctls[s], Mine(g.up.wires, s), g.up.wires);
    QuietLocal(c, g, s, Connect(true));
    QuietLocal(c, g, s, Serve);
  }

  lemma EmptyMeansSeen(c: Config, s: nat, x: Ctl, mine: seq<Wire>, wires: seq<Wire>)
    requires c.Valid() && UpWireInv(c.n, s, x.said, x.hi, x.est, x.estSeen, mine) && mine == Mine(wires, s)
    requires x.said == c.n && x.est && x.hi <= Below(x.said)
    requires forall j :: 0 <= j < |wires| ==> wires[j] == []
    ensures x.hi == Below(c.n) && x.estSeen
  {
    forall j | 0 <= j < c.n ensures j in x.hi {
      assert HiInv(x.said, x.hi, mine[j], j);
    }
  }

  lemma DrainedSender(c: Config, g: System, s: nat, d: Dir)
    requires CalmSystem(c, g) && Quiet(c, g) && s < |g.ctls|
    ensures WellFormed(c, g)
    ensures var tx := g.At(d).txs[s]; |tx.dealt| == |tx.line| && Bytes(tx.line) == tx.src && !tx.source.Pushing?
    ensures forall k :: 0 <= k < |g.At(d).txs[s].dealt| && k < |g.At(d).txs[s].line| ==>
      g.At(d).txs[s].dealt[k].chunk == g.At(d).txs[s].line[k]
  {
    hide CalmSystem, CalmStream, SystemAlways, Quiet, Still, View, TxEnabled, CalmTx, SourceInv, SenderInv, ObjectInv, EofLast, Q.Ready, Bytes;
    ShapeOf(c, g);
    QuietIsStill(c, g, s);
    CalmOf(c, g, s);
    SenderParts(c, g, s, d);
    ViewParts(c, g, s, d);
    QuietClient(c, g, s);
    QuietServer(c, g, s);
    QuietTx(c, g, s, d, SrcPush);
    QuietTx(c, g, s, d, SendBegin);
    QuietTx(c, g, s, d, SendCheck);
    QuietTx(c, g, s, d, SendTake);
    QuietTx(c, g, s, d, SendPut);
    StuckSender(c, s, View(c, g, s).b.At(d).t);
  }

  lemma DrainedReceiver(c: Config, g: System, s: nat, d: Dir)
    requires CalmSystem(c, g) && Quiet(c, g) && s < |g.ctls|
    ensures WellFormed(c, g)
    ensures g.At(d).rxs[s].out == Sent(g.At(d).txs[s].dealt, |g.At(d).txs[s].dealt|)
  {
    hide CalmSystem, CalmStream, SystemAlways, Quiet, Still, Stuck, View, CalmRx, RxInv, Lane, L.Waiting, Sent;
    ShapeOf(c, g);
    QuietIsStill(c, g, s);
    CalmOf(c, g, s);
    MergerParts(c, g, s, d);
    ViewParts(c, g, s, d);
    QuietServer(c, g, s);
    StillIsStuck(c, g, s, d, 0);
    QuietClient(c, g, s);
    MergerLaunched(c, g, s, d, 0);
    QuietMerger(c, g, s, d, 0);
    WiresEmpty(c, g, d);
    RxOf(c, g, s, d);
    var v := View(c, g, s);
    DrainedMerger(c.n, s, g.At(d).txs[s].dealt, v.b.At(d).r, v.Wires(d));
  }

  lemma RxOf(c: Config, g: System, s: nat, d: Dir)
    requires WellFormed(c, g) && s < |g.ctls|
    ensures View(c, g, s).b.At(d).r.rx == g.At(d).rxs[s]
  {
  }

  lemma QuietOutput(c: Config, g: System, s: nat, d: Dir)
    requires CalmSystem(c, g) && Quiet(c, g) && s < |g.ctls|
    ensures WellFormed(c, g)
    ensures g.At(d).rxs[s].out == g.At(d).txs[s].src
    ensures !g.At(d).txs[s].source.Pushing?
  {
    hide CalmSystem, Quiet, Sent, Bytes;
    DrainedSender(c, g, s, d);
    DrainedReceiver(c, g, s, d);
    var tx := g.At(d).txs[s];
    SentIsBytes(tx.dealt, tx.line, |tx.dealt|);
    assert tx.line[..|tx.line|] == tx.line;
  }

  /** A merge that has received everything, and goes on, has met no end mark. */
  lemma NoMarkDealt(n: nat, s: nat, e: Ends, wires: seq<Wire>)
    requires n >= 1 && |wires| == n && RxInv(n, s, e.t.tx.dealt, e.r, wires) && CalmRx(e.r.rx)
    requires Unended(e.t.tx.dealt, e.r.rx)
    requires forall j :: 0 <= j < n ==> wires[j] == []
    requires e.r.rx.merger.Read? ==>
      e.r.rx.merger.orphan.None? && e.r.rx.merger.j == Lane(e.r.rx.popped, n) && L.Waiting(e.r.links, Id(s, e.r.rx.merger.j)) == []
    ensures e.r.rx.merger.Read? ==> forall k :: 0 <= k < |e.t.tx.dealt| ==> !e.t.tx.dealt[k].chunk.eof
    ensures e.r.rx.merger.Over? ==> e.r.rx.shut
  {
    hide RxInv, Lane, L.Waiting;
    if e.r.rx.merger.Read? { DrainedMerger(n, s, e.t.tx.dealt, e.r, wires); }
  }

  /** When nothing can move, a destination is half-closed exactly if an end mark was
      put into its queue. */
  lemma QuietShut(c: Config, g: System, s: nat, d: Dir)
    requires CalmSystem(c, g) && Quiet(c, g) && s < |g.ctls|
    ensures WellFormed(c, g)
    ensures g.At(d).rxs[s].shut <==> !NoEof(g.At(d).txs[s].line)
    ensures g.At(d).rxs[s].shut ==> g.At(d).txs[s].source.Stopped?
  {
    hide CalmSystem, CalmStream, SystemAlways, Quiet, Still, Stuck, View, CalmRx, RxInv, Lane, L.Waiting, Unended, NoEof;
    ShapeOf(c, g);
    CalmOf(c, g, s);
    MergerParts(c, g, s, d);
    ViewParts(c, g, s, d);
    QuietIsStill(c, g, s);
    QuietServer(c, g, s);
    StillIsStuck(c, g, s, d, 0);
    QuietClient(c, g, s);
    MergerLaunched(c, g, s, d, 0);
    QuietMerger(c, g, s, d, 0);
    WiresEmpty(c, g, d);
    RxOf(c, g, s, d);
    var v := View(c, g, s);
    UnendedOf(c, g, s, d);
    NoMarkDealt(c.n, s, v.b.At(d), v.Wires(d));
    DrainedSender(c, g, s, d);
    MarkDealt(g.At(d).txs[s]);
  }

  lemma MarkDealt(tx: Tx)
    requires |tx.dealt| == |tx.line| && forall k :: 0 <= k < |tx.dealt| ==> tx.dealt[k].chunk == tx.line[k]
    ensures NoEof(tx.line) <==> forall k :: 0 <= k < |tx.dealt| ==> !tx.dealt[k].chunk.eof
  {
    if forall k :: 0 <= k < |tx.dealt| ==> !tx.dealt[k].chunk.eof {
      forall k | 0 <= k < |tx.line| ensures !tx.line[k].eof {
        assert !tx.dealt[k].chunk.eof;
      }
    }
  }

  lemma UnendedOf(c: Config, g: System, s: nat, d: Dir)
    requires CalmStream(c, g, s)
    ensures var e := View(c, g, s).b.At(d);
      && Unended(e.t.tx.dealt, e.r.rx)
      && (e.r.rx.shut ==> !NoEof(e.t.tx.line) && e.t.tx.source.Stopped?)
  {
    hide Always, Ordered, CalmTx, CalmRx, Unended, NoEof;
    StreamInOrder(c, s, View(c, g, s), d);
  }

  /** Everything that was read from the connection of a direction has been written to
      its peer, and the end has been passed on if and only if it was read. */
  ghost predicate Delivered(c: Config, evs: seq<Event>, g: System, s: nat, d: Dir)
    requires WellFormed(c, g) && s < |g.ctls|
  {
    && g.At(d).rxs[s].out == ReadBy(evs, s, d)
    && (g.At(d).rxs[s].shut <==> EndRead(evs, s, d))
    && (EndRead(evs, s, d) ==> g.At(d).txs[s].source.Stopped?)
  }

  lemma CalmPushes(evs: seq<Event>, s: nat, d: Dir)
    requires forall e <- evs :: CalmEvent(e)
    ensures !PushFailed(evs, s, d)
  {
  }

  /** No deadlock: when no internal event can fire after a calm run, every byte the run
      delivered from any connection has been written to its peer, both ways, and a
      destination is half-closed exactly if the end of its source was read. */
  lemma QuietMeansDelivered(c: Config, evs: seq<Event>, g: System, s: nat, d: Dir)
    requires c.Valid() && CalmReaches(c, evs, g) && WellFormed(c, g) && Quiet(c, g) && s < |g.ctls|
    ensures Delivered(c, evs, g, s, d)
  {
    hide CalmSystem, Quiet, Leads, CalmEvent, Tracks;
    CalmReachable(c, evs, g);
    QuietOutput(c, g, s, d);
    QuietShut(c, g, s, d);
    CalmPushes(evs, s, d);
    InputAccounted(c, evs, g, s, d);
    MarkInLine(c, evs, g, s, d);
  }
}
