/** A run over two websockets in which a close races with a launched Send: the
    destination is given bytes out of order, and the drain has no bound. */
module RaceRun {
  import opened Data
  import opened Protocol
  import opened Stream
  import opened Mux
  import opened MuxInvariant
  import opened Calm
  import opened Progress
  import opened Race
  import opened SecondLoop
  import opened Inputs
  import Q = QueueHubModel
  import L = LinkHubModel

  const TWO := Config(2, 2)
  const M := Id(0, 0)
  const N := Id(0, 1)

  /** The parts of a system with one stream that decide this run. */
  ghost predicate Sim(g: System, k: nat, x: Ctl, t: TxEnd, up: seq<Wire>) {
    && WellFormed(TWO, g) && |g.ctls| == 1 && g.clock == k
    && g.ctls[0] == x && EndsOf(g.down, 0).t == t && g.up.wires == up
  }

  /** The run so far, in calm steps. */
  ghost predicate Got(evs: seq<Event>, g: System, k: nat, x: Ctl, t: TxEnd, up: seq<Wire>) {
    CalmReaches(TWO, evs, g) && Sim(g, k, x, t, up)
  }

  lemma SimStep(g: System, k: nat, x: Ctl, t: TxEnd, up: seq<Wire>, a: Act)
    requires Sim(g, k, x, t, up) && CanFire(TWO, g, On(0, a))
    ensures var b := Core(TWO, 0, BothOf(g, 0), a, k, SystemHead(g, a));
      Sim(Fire(TWO, g, On(0, a)), k + 1, b.ctl, b.down.t, WiresAfter(TWO, g, 0, a, Up))
  {
    FireShape(TWO, g, 0, a);
    FireIs(TWO, g, 0, a);
    hide Core, CorePost, CanFire, Fire, WiresAfter;
  }

  lemma Extend(evs: seq<Event>, g: System, k: nat, x: Ctl, t: TxEnd, up: seq<Wire>, a: Act)
    returns (evs': seq<Event>, g': System)
    requires Got(evs, g, k, x, t, up) && CanFire(TWO, g, On(0, a)) && CalmAct(a)
    ensures g' == Fire(TWO, g, On(0, a)) && CalmReaches(TWO, evs', g')
  {
    hide Fire, CanFire, CalmAct;
    var e := On(0, a);
    evs', g' := evs + [e], Fire(TWO, g, e);
    LeadsOne(TWO, g, e);
    LeadsJoin(TWO, Start(TWO), evs, g, [e], g');
  }

  lemma Says(evs: seq<Event>, g: System, k: nat, x: Ctl, t: TxEnd, up: seq<Wire>)
    returns (evs': seq<Event>, g': System)
    requires Got(evs, g, k, x, t, up) && x.said == x.added < 2
    ensures Got(evs', g', k + 1, x.(said := x.said + 1), t, Posted(up, x.said, Hi(Id(0, x.said), M, k)))
  {
    SimStep(g, k, x, t, up, Say);
    evs', g' := Extend(evs, g, k, x, t, up, Say);
  }

  lemma Registers(evs: seq<Event>, g: System, k: nat, x: Ctl, t: TxEnd, up: seq<Wire>)
    returns (evs': seq<Event>, g': System)
    requires Got(evs, g, k, x, t, up) && x.added < x.said
    ensures Got(evs', g', k + 1, x.(added := x.added + 1), t, up)
  {
    hide L.AddLink, L.Ready, Q.Ready, Q.WithWriter;
    SimStep(g, k, x, t, up, Register);
    evs', g' := Extend(evs, g, k, x, t, up, Register);
  }

  lemma Establishes(evs: seq<Event>, g: System, k: nat, x: Ctl, t: TxEnd, up: seq<Wire>)
    returns (evs': seq<Event>, g': System)
    requires Got(evs, g, k, x, t, up) && x.added == 2 && !x.est
    ensures Got(evs', g', k + 1, x.(est := true), t, Posted(up, 0, Est(M, Order(0, 2), k)))
  {
    SimStep(g, k, x, t, up, SendEst);
    evs', g' := Extend(evs, g, k, x, t, up, SendEst);
  }

  lemma Greets(evs: seq<Event>, g: System, k: nat, x: Ctl, t: TxEnd, up: seq<Wire>, lane: nat)
    returns (evs': seq<Event>, g': System)
    requires Got(evs, g, k, x, t, up) && lane < |up| && up[lane] != [] && up[lane][0].Hi? && up[lane][0].id == Id(0, lane)
    ensures Got(evs', g', k + 1, x.(hi := x.hi + {lane}),
                TryLaunch(t.(queue := Some(Q.WithWriter(t.queue, Id(0, lane), lane)))), up[lane := up[lane][1..]])
  {
    hide L.AddLink, L.Ready, Q.Ready, Q.WithWriter;
    var a := Receive(Up, lane);
    assert SystemHead(g, a) == Some(up[lane][0]);
    SimStep(g, k, x, t, up, a);
    evs', g' := Extend(evs, g, k, x, t, up, a);
  }

  lemma LearnsOrder(evs: seq<Event>, g: System, k: nat, x: Ctl, t: TxEnd, up: seq<Wire>)
    returns (evs': seq<Event>, g': System)
    requires Got(evs, g, k, x, t, up) && |up| == 2 && up[0] != [] && up[0][0].Est? && up[0][0].id == M
    ensures Got(evs', g', k + 1, x.(estSeen := true), t.(queue := Some(Q.WithSort(t.queue, up[0][0].sorted))), up[0 := up[0][1..]])
  {
    hide L.SortLink;
    var a := Receive(Up, 0);
    assert SystemHead(g, a) == Some(up[0][0]);
    SimStep(g, k, x, t, up, a);
    evs', g' := Extend(evs, g, k, x, t, up, a);
  }

  lemma Dials(evs: seq<Event>, g: System, k: nat, x: Ctl, t: TxEnd, up: seq<Wire>)
    returns (evs': seq<Event>, g': System)
    requires Got(evs, g, k, x, t, up) && x.estSeen && x.dial.NotYet?
    ensures Got(evs', g', k + 1, x.(dial := Ok), t, up)
  {
    hide L.ConnectLink, L.Ready;
    SimStep(g, k, x, t, up, Connect(true));
    evs', g' := Extend(evs, g, k, x, t, up, Connect(true));
  }

  lemma Serves(evs: seq<Event>, g: System, k: nat, x: Ctl, t: TxEnd, up: seq<Wire>)
    returns (evs': seq<Event>, g': System)
    requires Got(evs, g, k, x, t, up) && x.dial.Ok? && !x.serving && t.tx.gone.None?
    ensures var t1 := TryLaunch(t); Got(evs', g', k + 1, x.(serving := true), t1.(tx := t1.tx.(source := Reading)), up)
  {
    hide Q.Ready;
    SimStep(g, k, x, t, up, Serve);
    evs', g' := Extend(evs, g, k, x, t, up, Serve);
  }

  lemma Sends(evs: seq<Event>, g: System, k: nat, x: Ctl, t: TxEnd, up: seq<Wire>, a: TxAct)
    returns (evs': seq<Event>, g': System)
    requires Got(evs, g, k, x, t, up) && TxEnabled(TWO, t, a) && (a.SrcRead? || a.SrcPush? || a.SendBegin?)
    ensures Got(evs', g', k + 1, x, TxStep(TWO, t, a, k), up)
  {
    hide TxEnabled, TxStep;
    SimStep(g, k, x, t, up, Tx_(Down, a));
    evs', g' := Extend(evs, g, k, x, t, up, Tx_(Down, a));
  }

  /** The client announces both lanes and asks for the connection. */
  lemma Announced() returns (evs: seq<Event>, g: System)
    ensures Got(evs, g, 5, NEW_CTL.(said := 2, added := 2, est := true), TxEnd(None, NEW_TX),
                [[Hi(M, M, 0), Est(M, Order(0, 2), 4)], [Hi(N, M, 2)]])
  {
    var x, t := NEW_CTL, TxEnd(None, NEW_TX);
    var hi0, hi1, est := Hi(M, M, 0), Hi(N, M, 2), Est(M, Order(0, 2), 4);
    var w0: seq<Wire>, w1: seq<Wire> := [[], []], [[hi0], []];
    var w2: seq<Wire>, w3: seq<Wire> := [[hi0], [hi1]], [[hi0, est], [hi1]];
    PostedIs(w0, 0, hi0, w1);
    PostedIs(w1, 1, hi1, w2);
    PostedIs(w2, 0, est, w3);
    evs, g := Opened();
    hide Got, Posted;
    evs, g := Says(evs, g, 0, x, t, w0);
    evs, g := Registers(evs, g, 1, x.(said := 1), t, w1);
    evs, g := Says(evs, g, 2, x.(said := 1, added := 1), t, w1);
    evs, g := Registers(evs, g, 3, x.(said := 2, added := 1), t, w2);
    evs, g := Establishes(evs, g, 4, x.(said := 2, added := 2), t, w2);
  }

  lemma PostedIs(w: seq<Wire>, lane: nat, m: Msg, r: seq<Wire>)
    requires lane < |w| == |r| && r[lane] == w[lane] + [m] && forall j :: 0 <= j < |w| && j != lane ==> r[j] == w[j]
    ensures Posted(w, lane, m) == r
  {
  }

  lemma Opened() returns (evs: seq<Event>, g: System)
    ensures Got(evs, g, 0, NEW_CTL, TxEnd(None, NEW_TX), [[], []])
  {
    evs, g := [Open], Fire(TWO, Start(TWO), Open);
    LeadsOne(TWO, Start(TWO), Open);
    assert g.up.wires == [[], []];
  }

  const ONE_WRITER := Q.NEW_QUEUE.(writers := map[M := 0])
  const BOTH_WRITERS := Q.NEW_QUEUE.(writers := map[M := 0, N := 1], sorted := Order(0, 2))

  /** The second Hi comes after the order and the dial: the last Add launches Send, and
      so does TrySend. */
  lemma LaunchedTwice() returns (evs: seq<Event>, g: System)
    ensures Got(evs, g, 10, Ctl(2, 2, true, false, false, false, {0, 1}, true, Ok, true),
                TxEnd(Some(BOTH_WRITERS), NEW_TX.(pending := 2, source := Reading)), [[], []])
  {
    var x := NEW_CTL.(said := 2, added := 2, est := true);
    var hi0, hi1, est := Hi(M, M, 0), Hi(N, M, 2), Est(M, Order(0, 2), 4);
    var w0: seq<Wire>, w1: seq<Wire> := [[hi0, est], [hi1]], [[est], [hi1]];
    var w2: seq<Wire>, w3: seq<Wire> := [[], [hi1]], [[], []];
    DroppedIs(w0, 0, w1);
    DroppedIs(w1, 0, w2);
    DroppedIs(w2, 1, w3);
    assert {} + {0} == {0} && {0} + {1} == {0, 1};
    evs, g := Announced();
    hide Got, TryLaunch, Q.WithWriter;
    evs, g := Greets(evs, g, 5, x, TxEnd(None, NEW_TX), w0, 0);
    FirstWriter();
    evs, g := LearnsOrder(evs, g, 6, x.(hi := {0}), TxEnd(Some(ONE_WRITER), NEW_TX), w1);
    var q := ONE_WRITER.(sorted := Order(0, 2));
    evs, g := Dials(evs, g, 7, x.(hi := {0}, estSeen := true), TxEnd(Some(q), NEW_TX), w2);
    evs, g := Greets(evs, g, 8, x.(hi := {0}, estSeen := true, dial := Ok), TxEnd(Some(q), NEW_TX), w2, 1);
    SecondWriter();
    var t := TxEnd(Some(BOTH_WRITERS), NEW_TX.(pending := 1));
    evs, g := Serves(evs, g, 9, x.(hi := {0, 1}, estSeen := true, dial := Ok), t, w3);
  }

  lemma DroppedIs(w: seq<Wire>, lane: nat, r: seq<Wire>)
    requires lane < |w| == |r| && w[lane] != [] && r[lane] == w[lane][1..] && forall j :: 0 <= j < |w| && j != lane ==> r[j] == w[j]
    ensures w[lane := w[lane][1..]] == r
  {
  }

  lemma FirstWriter()
    ensures TryLaunch(TxEnd(Some(Q.WithWriter(None, M, 0)), NEW_TX)) == TxEnd(Some(ONE_WRITER), NEW_TX)
  {
    assert ONE_WRITER.writers.Keys == {M};
    assert |ONE_WRITER.writers| == 1;
  }

  lemma SecondWriter()
    ensures var q := ONE_WRITER.(sorted := Order(0, 2));
      TryLaunch(TxEnd(Some(Q.WithWriter(Some(q), N, 1)), NEW_TX)) == TxEnd(Some(BOTH_WRITERS), NEW_TX.(pending := 1))
    ensures TryLaunch(TxEnd(Some(BOTH_WRITERS), NEW_TX.(pending := 1))) == TxEnd(Some(BOTH_WRITERS), NEW_TX.(pending := 2))
  {
    assert ONE_WRITER.writers[N := 1] == BOTH_WRITERS.writers;
    assert BOTH_WRITERS.writers.Keys == {M, N};
    assert |BOTH_WRITERS.writers| == |BOTH_WRITERS.writers.Keys| == 2;
  }

  const A := Chunk(false, [1])
  const B := Chunk(false, [2])

  /** Two chunks are read, and the first of the two Sends begins its loop. */
  lemma RaceHappens() returns (evs: seq<Event>, g: System)
    ensures CalmReaches(TWO, evs, g) && WellFormed(TWO, g) && |g.ctls| == 1
    ensures Racing(g.down.txs[0]) && TwoAhead(EndsOf(g.down, 0).t) && CanFire(TWO, g, On(0, CLOSE))
    ensures NoEndAhead(EndsOf(g.down, 0).t)
  {
    var x := Ctl(2, 2, true, false, false, false, {0, 1}, true, Ok, true);
    var tx := NEW_TX.(pending := 2, source := Reading);
    evs, g := LaunchedTwice();
    hide Got, TxEnabled, TxStep, Pushed;
    var t := TxEnd(Some(BOTH_WRITERS), tx);
    evs, g := Reads(evs, g, 10, x, t, [[], []], A.data);
    PushedOne(tx);
    evs, g := Reads(evs, g, 12, x, Pushed(t, A.data), [[], []], B.data);
    BeginsLoop(tx);
    var t2 := Pushed(Pushed(t, A.data), B.data);
    evs, g := Sends(evs, g, 14, x, t2, [[], []], SendBegin);
    LastState(evs, g, x, TxStep(TWO, t2, SendBegin, 14));
  }

  /** The sending side after one more chunk was read and pushed. */
  function Pushed(t: TxEnd, data: seq<byte>): TxEnd
    requires t.queue.Some?
  {
    var x, q := Chunk(false, data), t.queue.value;
    TxEnd(Some(q.(buffer := q.buffer + [x])), t.tx.(src := t.tx.src + data, line := t.tx.line + [x]))
  }

  /** One turn of the copy loop. */
  lemma Reads(evs: seq<Event>, g: System, k: nat, x: Ctl, t: TxEnd, up: seq<Wire>, data: seq<byte>)
    returns (evs': seq<Event>, g': System)
    requires Got(evs, g, k, x, t, up) && t.tx.source.Reading? && t.tx.gone.None? && data != []
    requires t.queue.Some? && t.queue.value.open && t.queue.value.status != StaDone && |t.queue.value.buffer| < 2
    ensures Got(evs', g', k + 2, x, Pushed(t, data), up)
  {
    hide Got;
    var t1 := TxStep(TWO, t, SrcRead(data), k);
    evs', g' := Sends(evs, g, k, x, t, up, SrcRead(data));
    evs', g' := Sends(evs', g', k + 1, x, t1, up, SrcPush);
  }

  lemma PushedOne(tx: Tx)
    requires tx == NEW_TX.(pending := 2, source := Reading)
    ensures var t := Pushed(TxEnd(Some(BOTH_WRITERS), tx), A.data);
      && t.tx.source.Reading? && t.tx.gone.None? && t.queue.Some? && t.queue.value.open
      && t.queue.value.status != StaDone && |t.queue.value.buffer| < 2
  {
  }

  lemma BeginsLoop(tx: Tx)
    requires tx == NEW_TX.(pending := 2, source := Reading)
    ensures var t := Pushed(Pushed(TxEnd(Some(BOTH_WRITERS), tx), A.data), B.data);
      && TxEnabled(TWO, t, SendBegin)
      && var t' := TxStep(TWO, t, SendBegin, 14);
         && t'.queue.Some? && t'.tx.gone.None? && t'.queue.value.buffer == [A, B]
         && t'.tx.pending == 1 && t'.tx.sender.Check?
  {
    assert [] + [A] + [B] == [A, B];
  }

  lemma LastState(evs: seq<Event>, g: System, x: Ctl, t: TxEnd)
    requires Got(evs, g, 15, x, t, [[], []]) && x.dial.Ok?
    requires t.queue.Some? && t.tx.gone.None? && t.queue.value.buffer == [A, B] && t.tx.pending == 1 && t.tx.sender.Check?
    ensures CalmReaches(TWO, evs, g) && WellFormed(TWO, g) && |g.ctls| == 1
    ensures Racing(g.down.txs[0]) && TwoAhead(EndsOf(g.down, 0).t) && CanFire(TWO, g, On(0, CLOSE))
    ensures NoEndAhead(EndsOf(g.down, 0).t)
  {
    hide CalmReaches;
    assert NoEof([A, B]);
    assert B.data[0] != (A.data + B.data)[0];
  }

  /** Order is broken in a run of the machine over two websockets. */
  lemma OrderBreaks() returns (evs: seq<Event>, g: System)
    ensures Reaches(TWO, evs, g) && WellFormed(TWO, g) && |g.ctls| >= 1
    ensures !(g.down.rxs[0].out <= ReadBy(evs, 0, Down))
  {
    var before, g0 := RaceHappens();
    hide CanFire, Fire, Leads, Racing, TwoAhead, NoEndAhead, CalmStream, Tracks, ReadBy;
    OwnCalmReachable(TWO, before, g0, 0);
    var more, g' := RaceBreaks(TWO, g0, 0);
    var e := On(0, CLOSE);
    GoesOn(TWO, before, g0, e, more, g');
    InputAccounted(TWO, before + [e] + more, g', 0, Down);
    evs, g := before + [e] + more, g';
  }

  /** In the same run there is no bound on what the loop receives after the close. */
  lemma DrainUnbounded() returns (evs: seq<Event>, g: System)
    ensures Reaches(TWO, evs, g) && WellFormed(TWO, g) && |g.ctls| == 1 && CanFire(TWO, g, On(0, CLOSE))
    ensures !BoundedDrain(TWO, Fire(TWO, g, On(0, CLOSE)), 0, Down)
  {
    evs, g := RaceHappens();
    hide CanFire, Fire, Leads, TwoAhead, NoEndAhead, BoundedDrain;
    DrainBoundedIff(TWO, evs, g, 0, Down);
  }
}
