/** What a step can change at one end of one direction. */
module OneEnd {
  import opened Data
  import opened Protocol
  import opened Stream
  import opened StreamInvariant
  import Q = QueueHubModel
  import L = LinkHubModel

  /** A step of another kind may launch goroutines, nothing else. */
  ghost predicate OnlyStarts(e: Ends, e': Ends) {
    && e'.t.tx == e.t.tx.(pending := e'.t.tx.pending, source := e'.t.tx.source)
    && e'.r.rx == e.r.rx.(launches := e'.r.rx.launches, order := e'.r.rx.order, merger := e'.r.rx.merger)
    && (e'.t.tx.source == e.t.tx.source
        || (e.t.tx.source.Off? && e'.t.tx.source.Reading?)
        || (e.t.tx.source.Off? && e'.t.tx.source.Stopped? && e.t.tx.gone.Some?))
    && (e'.r.rx.merger == e.r.rx.merger || (e.r.rx.merger.Dormant? && e'.r.rx.merger.Launched?))
    && Q.Ensured(e'.t.queue).open == Q.Ensured(e.t.queue).open
    && Q.Ensured(e'.t.queue).status == Q.Ensured(e.t.queue).status
  }

  predicate ActsOn(a: Act, d: Dir) {
    (a.Tx_? || a.Again? || a.Rx_?) && a.dir == d
  }

  lemma OffBeforeStart(c: Config, s: nat, v: Stream)
    requires Always(c, s, v)
    ensures v.b.up.t.tx.source.Off? <==> !v.b.ctl.queueStarted
    ensures v.b.down.t.tx.source.Off? <==> !v.b.ctl.serving
  {
    hide UpWireInv, DownWireInv, UpLinksInv, DownLinksInv, TxInv, TxShape, RxInv, RxShape;
  }

  lemma StepIsCore(c: Config, s: nat, v: Stream, a: Act, now: nat)
    requires Enabled(c, s, v, a)
    ensures Step(c, s, v, a, now).b == Core(c, s, v.b, a, now, HeadFor(v, a))
  {
    hide Core, CoreEnabled, CorePost;
  }

  lemma CoreEnds(c: Config, s: nat, b: Both, a: Act, now: nat, head: Option<Msg>, d: Dir)
    requires CoreEnabled(c, s, b, a, head)
    requires b.up.t.tx.source.Off? <==> !b.ctl.queueStarted
    requires b.down.t.tx.source.Off? <==> !b.ctl.serving
    ensures var e, e' := b.At(d), Core(c, s, b, a, now, head).At(d);
      && (a.Tx_? && a.dir == d ==> e' == e.(t := TxStep(c, e.t, a.tx, now)))
      && (a.Again? && a.dir == d ==> e' == e.(t := AgainStep(c, e.t, a.k, a.tx, now)))
      && (a.Rx_? && a.dir == d ==> e' == e.(r := RxStep(e.r, Master(s), a.rx)))
      && (!ActsOn(a, d) ==> OnlyStarts(e, e'))
  {
    hide TxStep, TxEnabled, AgainStep, AgainEnabled, RxStep, RxEnabled, L.AddLink, L.SortLink, L.ConnectLink, L.Ready, Q.Ready, Accept;
    match a
    case Register =>
    case StartQueue =>
    case StartLink =>
    case Connect(_) =>
    case Serve =>
    case Tx_(_, _) =>
    case Rx_(_, _) =>
    case Receive(_, _) =>
    case _ =>
  }

  lemma StepEnds(c: Config, s: nat, v: Stream, a: Act, now: nat, d: Dir)
    requires Always(c, s, v) && Enabled(c, s, v, a)
    ensures var e, e' := v.b.At(d), Step(c, s, v, a, now).b.At(d);
      && (a.Tx_? && a.dir == d ==> e' == e.(t := TxStep(c, e.t, a.tx, now)))
      && (a.Again? && a.dir == d ==> e' == e.(t := AgainStep(c, e.t, a.k, a.tx, now)))
      && (a.Rx_? && a.dir == d ==> e' == e.(r := RxStep(e.r, Master(s), a.rx)))
      && (!ActsOn(a, d) ==> OnlyStarts(e, e'))
  {
    hide Always, Step, Core, OnlyStarts, TxStep, TxEnabled, AgainStep, AgainEnabled, RxStep, RxEnabled;
    OffBeforeStart(c, s, v);
    StepIsCore(c, s, v, a, now);
    CoreEnds(c, s, v.b, a, now, HeadFor(v, a), d);
  }

  lemma LoopEnabled(c: Config, s: nat, v: Stream, a: Act)
    requires Enabled(c, s, v, a)
    ensures a.Tx_? ==> TxEnabled(c, v.b.At(a.dir).t, a.tx)
    ensures a.Again? ==> AgainEnabled(c, v.b.At(a.dir).t, a.k, a.tx)
  {
    hide TxEnabled, AgainEnabled, RxEnabled;
  }

  /** Only the dial itself decides the dial. */
  lemma DialAfter(c: Config, s: nat, b: Both, a: Act, now: nat, head: Option<Msg>)
    requires CoreEnabled(c, s, b, a, head)
    ensures Core(c, s, b, a, now, head).ctl.dial == if a.Connect? then (if a.ok then Ok else Failed) else b.ctl.dial
    ensures a.Connect? ==> b.ctl.dial.NotYet?
  {
    hide TxEnabled, TxStep, AgainEnabled, AgainStep, RxEnabled, RxStep, TryLaunch, TryLaunchLinks, Accept, Acceptable, Launch;
    hide L.AddLink, L.SortLink, L.ConnectLink, Q.WithWriter, Q.WithSort, MayClose;
    match a
    case Register =>
    case StartQueue =>
    case StartLink =>
    case Connect(_) =>
    case Serve =>
    case Receive(_, _) =>
    case _ =>
  }
}
