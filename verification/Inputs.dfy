/** What a run was given: the bytes and the ends of input its events delivered to the copy
    loops, and that the state accounts for exactly these. */
module Inputs {
  import opened Data
  import opened RoundRobin
  import opened Protocol
  import opened Stream
  import opened StreamInvariant
  import opened Mux
  import opened MuxInvariant
  import opened OneEnd
  import Q = QueueHubModel

  // ---- the events alone --------------------------------------------------

  /** What one event delivers to the copy loop of a direction of stream s. */
  function ReadIn(e: Event, s: nat, d: Dir): seq<byte> {
    if e.On? && e.s == s && e.a.Tx_? && e.a.dir == d && e.a.tx.SrcRead? then e.a.tx.data else []
  }

  /** The bytes read from a connection during a run. */
  function ReadBy(evs: seq<Event>, s: nat, d: Dir): seq<byte> {
    if evs == [] then [] else ReadIn(evs[0], s, d) + ReadBy(evs[1..], s, d)
  }

  /** An end of input, or a failing read, was met. */
  predicate EndRead(evs: seq<Event>, s: nat, d: Dir) {
    On(s, Tx_(d, SrcEof)) in evs
  }

  /** A push into the queue failed. */
  predicate PushFailed(evs: seq<Event>, s: nat, d: Dir) {
    On(s, Tx_(d, SrcFail)) in evs
  }

  function OfferedIn(e: Event, s: nat, d: Dir): seq<Chunk> {
    if e == On(s, Tx_(d, SrcEof)) then [EOF_MARK]
    else if ReadIn(e, s, d) != [] then [Chunk(false, ReadIn(e, s, d))]
    else []
  }

  /** The chunks a copy loop has to offer to its queue: one for each read, as it was
      read, and a mark for the end. */
  function Offered(evs: seq<Event>, s: nat, d: Dir): seq<Chunk> {
    if evs == [] then [] else OfferedIn(evs[0], s, d) + Offered(evs[1..], s, d)
  }

  lemma {:induction false} ReadByJoin(xs: seq<Event>, ys: seq<Event>, s: nat, d: Dir)
    ensures ReadBy(xs + ys, s, d) == ReadBy(xs, s, d) + ReadBy(ys, s, d)
  {
    if xs == [] {
      assert xs + ys == ys;
    } else {
      assert (xs + ys)[1..] == xs[1..] + ys;
      ReadByJoin(xs[1..], ys, s, d);
    }
  }

  /** The end mark is offered exactly when the end was read. */
  lemma {:induction false} MarkIsEnd(evs: seq<Event>, s: nat, d: Dir)
    ensures EndRead(evs, s, d) <==> EOF_MARK in Offered(evs, s, d)
    ensures forall x <- Offered(evs, s, d) :: x.eof ==> x == EOF_MARK
    ensures ZERO !in Offered(evs, s, d)
  {
    if evs != [] {
      MarkIsEnd(evs[1..], s, d);
      assert evs == [evs[0]] + evs[1..];
    }
  }

  // ---- what the state accounts for ---------------------------------------

  /** The chunks of a line that came from a connection; the others are the values a
      closed channel yields. */
  function Real(line: seq<Chunk>): seq<Chunk> {
    if line == [] then []
    else
      var x := line[|line| - 1];
      Real(line[..|line| - 1]) + if x == ZERO then [] else [x]
  }

  lemma RealAppend(line: seq<Chunk>, x: Chunk)
    ensures Real(line + [x]) == Real(line) + if x == ZERO then [] else [x]
  {
    assert (line + [x])[..|line|] == line;
  }

  lemma {:induction false} RealMember(line: seq<Chunk>, x: Chunk)
    requires x != ZERO
    ensures x in line <==> x in Real(line)
  {
    if line != [] {
      var front, last := line[..|line| - 1], line[|line| - 1];
      assert line == front + [last];
      RealMember(front, x);
    }
  }

  /** The chunk the copy loop has in its hand. */
  function InHand(source: Source): seq<Chunk> {
    if source.Pushing? then [source.chunk] else []
  }

  /** The copy loop has read `read`, and has put into the channel, or holds, what it had
      to offer; after a failed push the chunk in its hand is gone and it has stopped. */
  ghost predicate Tracks(tx: Tx, read: seq<byte>, offered: seq<Chunk>, failed: bool) {
    && tx.src == read
    && (tx.source.Pushing? ==> tx.source.chunk != ZERO) && (tx.source.Off? ==> read == [])
    && (if failed then tx.source.Stopped? && Real(tx.line) <= offered
        else Real(tx.line) + InHand(tx.source) == offered)
  }

  lemma TxTracks(c: Config, t: TxEnd, s: nat, d: Dir, a: TxAct, now: nat, read: seq<byte>, offered: seq<Chunk>, failed: bool)
    requires TxEnabled(c, t, a) && Tracks(t.tx, read, offered, failed)
    ensures var e := On(s, Tx_(d, a));
      Tracks(TxStep(c, t, a, now).tx, read + ReadIn(e, s, d), offered + OfferedIn(e, s, d), failed || a.SrcFail?)
  {
    hide Q.Ready, Q.Closed, Real;
    assert read + [] == read && offered + [] == offered;
    match a
    case SrcPush => PushTracks(c, t, now, read, offered, failed);
    case SendTake => RealAppend(t.tx.line, ZERO);
    case _ =>
  }

  lemma PushTracks(c: Config, t: TxEnd, now: nat, read: seq<byte>, offered: seq<Chunk>, failed: bool)
    requires TxEnabled(c, t, SrcPush) && Tracks(t.tx, read, offered, failed)
    ensures Tracks(TxStep(c, t, SrcPush, now).tx, read, offered, failed)
  {
    hide Q.Ready, Real;
    RealAppend(t.tx.line, t.tx.source.chunk);
  }

  lemma AgainTracks(c: Config, t: TxEnd, k: nat, a: TxAct, now: nat, read: seq<byte>, offered: seq<Chunk>, failed: bool)
    requires AgainEnabled(c, t, k, a) && Tracks(t.tx, read, offered, failed)
    ensures Tracks(AgainStep(c, t, k, a, now).tx, read, offered, failed)
  {
    hide TxEnabled, TxStep;
    TxTracks(c, Focus(t, k), 0, Up, a, now, read, offered, failed);
    assert read + [] == read && offered + [] == offered;
  }

  lemma StepTracks(c: Config, s: nat, v: Stream, a: Act, now: nat, d: Dir, read: seq<byte>, offered: seq<Chunk>, failed: bool)
    requires Always(c, s, v) && Enabled(c, s, v, a) && Tracks(v.b.At(d).t.tx, read, offered, failed)
    ensures var e := On(s, a);
      Tracks(Step(c, s, v, a, now).b.At(d).t.tx, read + ReadIn(e, s, d), offered + OfferedIn(e, s, d), failed || a == Tx_(d, SrcFail))
  {
    hide Always, Step, TxStep, TxEnabled, AgainStep, AgainEnabled, RxStep, RxEnabled, Real;
    StepEnds(c, s, v, a, now, d);
    LoopEnabled(c, s, v, a);
    if a.Tx_? && a.dir == d {
      TxTracks(c, v.b.At(d).t, s, d, a.tx, now, read, offered, failed);
    } else {
      assert read + [] == read && offered + [] == offered;
      if a.Again? && a.dir == d {
        AgainTracks(c, v.b.At(d).t, a.k, a.tx, now, read, offered, failed);
      }
    }
  }

  /** The copy loop of stream s, or of a stream still to be opened. */
  ghost predicate TracksAt(c: Config, g: System, s: nat, d: Dir, read: seq<byte>, offered: seq<Chunk>, failed: bool) {
    && SystemAlways(c, g)
    && (if s < |g.ctls| then Tracks(g.At(d).txs[s], read, offered, failed) else read == [] && offered == [] && !failed)
  }

  lemma EventTracks(c: Config, g: System, e: Event, s: nat, d: Dir, read: seq<byte>, offered: seq<Chunk>, failed: bool)
    requires TracksAt(c, g, s, d, read, offered, failed) && CanFire(c, g, e)
    ensures TracksAt(c, Fire(c, g, e), s, d, read + ReadIn(e, s, d), offered + OfferedIn(e, s, d), failed || e == On(s, Tx_(d, SrcFail)))
  {
    hide Always, CanFire, Step, Enabled, Tracks;
    assert read + [] == read && offered + [] == offered;
    if s < |g.ctls| {
      hide Fire;
      EventView(c, g, e, s);
      if e.On? && e.s == s {
        StepTracks(c, s, View(c, g, s), e.a, g.clock, d, read, offered, failed);
      }
    } else {
      EventKeeps(c, g, e);
      NewTracks(c, g, e, s, d);
    }
  }

  lemma NewTracks(c: Config, g: System, e: Event, s: nat, d: Dir)
    requires WellFormed(c, g) && CanFire(c, g, e) && s >= |g.ctls| && WellFormed(c, Fire(c, g, e))
    ensures ReadIn(e, s, d) == [] && OfferedIn(e, s, d) == [] && e != On(s, Tx_(d, SrcFail))
    ensures s < |Fire(c, g, e).ctls| ==> Tracks(Fire(c, g, e).At(d).txs[s], [], [], false)
  {
    if e.On? { FireShape(c, g, e.s, e.a); }
  }

  lemma {:induction false} LeadsTracks(c: Config, g: System, evs: seq<Event>, g': System, s: nat, d: Dir,
                                       read: seq<byte>, offered: seq<Chunk>, failed: bool)
    requires TracksAt(c, g, s, d, read, offered, failed) && Leads(c, g, evs, g')
    ensures TracksAt(c, g', s, d, read + ReadBy(evs, s, d), offered + Offered(evs, s, d), failed || PushFailed(evs, s, d))
    decreases |evs|
  {
    hide TracksAt, Fire, CanFire, ReadIn, OfferedIn;
    if evs == [] {
      assert read + [] == read && offered + [] == offered;
    } else {
      var e, rest := evs[0], evs[1..];
      assert evs == [e] + rest;
      EventTracks(c, g, e, s, d, read, offered, failed) by { Starts(c, g, s, d, read, offered, failed); }
      LeadsTracks(c, Fire(c, g, e), rest, g', s, d, read + ReadIn(e, s, d), offered + OfferedIn(e, s, d), failed || e == On(s, Tx_(d, SrcFail)));
      Assoc(read, ReadIn(e, s, d), ReadBy(rest, s, d));
      Assoc(offered, OfferedIn(e, s, d), Offered(rest, s, d));
    }
  }

  lemma Starts(c: Config, g: System, s: nat, d: Dir, read: seq<byte>, offered: seq<Chunk>, failed: bool)
    requires TracksAt(c, g, s, d, read, offered, failed)
    ensures WellFormed(c, g)
  {
  }

  /** In every run, whatever its failures and closes: the bytes the model counts as read
      are those the events delivered, and the chunks that entered the channel, with the
      one in the copy loop's hand, are the chunks it had to offer; after a failed push,
      the first of them. */
  lemma InputAccounted(c: Config, evs: seq<Event>, g: System, s: nat, d: Dir)
    requires c.Valid() && Reaches(c, evs, g) && s < |g.ctls|
    ensures WellFormed(c, g)
    ensures var tx := g.At(d).txs[s];
      && tx.src == ReadBy(evs, s, d)
      && Tracks(tx, ReadBy(evs, s, d), Offered(evs, s, d), PushFailed(evs, s, d))
  {
    hide Always, Fire, CanFire, Leads, Tracks;
    StartAlways(c);
    LeadsTracks(c, Start(c), evs, g, s, d, [], [], false);
    assert [] + ReadBy(evs, s, d) == ReadBy(evs, s, d) && [] + Offered(evs, s, d) == Offered(evs, s, d);
    assert g.At(d).txs[s].src == ReadBy(evs, s, d) by { SrcOf(g.At(d).txs[s], ReadBy(evs, s, d), Offered(evs, s, d), PushFailed(evs, s, d)); }
  }

  lemma SrcOf(tx: Tx, read: seq<byte>, offered: seq<Chunk>, failed: bool)
    requires Tracks(tx, read, offered, failed)
    ensures tx.src == read
  {
  }

  /** An end mark in the channel means that the end was read, and the other way round
      when nothing is in hand and no push failed. */
  lemma MarkInLine(c: Config, evs: seq<Event>, g: System, s: nat, d: Dir)
    requires c.Valid() && Reaches(c, evs, g) && s < |g.ctls|
    ensures WellFormed(c, g)
    ensures var tx := g.At(d).txs[s];
      && (!NoEof(tx.line) ==> EndRead(evs, s, d))
      && (EndRead(evs, s, d) && !PushFailed(evs, s, d) && !tx.source.Pushing? ==> !NoEof(tx.line))
  {
    hide Leads, Real, Offered;
    InputAccounted(c, evs, g, s, d);
    MarkIsEnd(evs, s, d);
    var tx := g.At(d).txs[s];
    if !NoEof(tx.line) {
      var k :| 0 <= k < |tx.line| && tx.line[k].eof;
      RealMember(tx.line, tx.line[k]);
      assert tx.line[k] in Offered(evs, s, d);
    }
    if EndRead(evs, s, d) && !PushFailed(evs, s, d) && !tx.source.Pushing? {
      assert Real(tx.line) + [] == Real(tx.line);
      RealMember(tx.line, EOF_MARK);
      var k :| 0 <= k < |tx.line| && tx.line[k] == EOF_MARK;
      assert tx.line[k].eof;
    }
  }

  // ---- a dial that failed ------------------------------------------------

  lemma {:induction false} DialStaysFailed(c: Config, g: System, evs: seq<Event>, g': System, s: nat)
    requires SystemAlways(c, g) && Leads(c, g, evs, g')
    requires (s < |g.ctls| && g.ctls[s].dial.Failed?) || On(s, Connect(false)) in evs
    ensures SystemAlways(c, g') && s < |g'.ctls| && g'.ctls[s].dial.Failed?
    decreases |evs|
  {
    hide Always, Fire, CanFire;
    if evs != [] {
      var e := evs[0];
      EventKeeps(c, g, e);
      if (s < |g.ctls| && g.ctls[s].dial.Failed?) || e == On(s, Connect(false)) {
        FailsAt(c, g, e, s);
      } else {
        assert On(s, Connect(false)) in evs[1..] by { Later(evs, On(s, Connect(false))); }
      }
      DialStaysFailed(c, Fire(c, g, e), evs[1..], g', s);
    }
  }

  lemma Later(evs: seq<Event>, e: Event)
    requires e in evs && evs[0] != e
    ensures e in evs[1..]
  {
    var k :| 0 <= k < |evs| && evs[k] == e;
    assert evs[1..][k - 1] == e;
  }

  lemma FailsAt(c: Config, g: System, e: Event, s: nat)
    requires SystemAlways(c, g) && CanFire(c, g, e)
    requires (s < |g.ctls| && g.ctls[s].dial.Failed?) || e == On(s, Connect(false))
    ensures var g' := Fire(c, g, e); s < |g'.ctls| && g'.ctls[s].dial.Failed?
  {
    hide Always;
    if e.On? {
      StreamExists(c, g, e.s, e.a);
      if e.s == s {
        DialAfter(c, s, BothOf(g, s), e.a, g.clock, SystemHead(g, e.a));
      }
      FireParts(c, g, e.s, e.a);
      hide Fire, CanFire, Core;
    }
  }

  /** After a dial that failed nothing is ever sent on or read, in any run. */
  lemma FailedDial(c: Config, evs: seq<Event>, g: System, s: nat)
    requires c.Valid() && Reaches(c, evs, g) && On(s, Connect(false)) in evs
    ensures WellFormed(c, g) && s < |g.ctls|
    ensures g.up.rxs[s].merger.Dormant? && g.up.rxs[s].out == [] && !g.up.rxs[s].shut
    ensures ReadBy(evs, s, Down) == []
  {
    hide Leads;
    StartAlways(c);
    DialStaysFailed(c, Start(c), evs, g, s);
    InputAccounted(c, evs, g, s, Down);
    assert Always(c, s, View(c, g, s));
    hide UpWireInv, DownWireInv, DownLinksInv, UpQueueInv, TxInv, TxShape, Lanes, RemovedInv, RxShape;
  }
}
