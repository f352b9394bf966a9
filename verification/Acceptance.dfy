/** What `Write` queues: exactly the datagram it is given, behind everything queued before, or nothing at all. */
module Acceptance {
  import opened Wrappers
  import opened Addresses
  import opened World
  import opened EndpointState
  import opened EndpointSpec
  import opened Frames
  import opened Preservation
  import opened Runs
  import opened History
  import opened Announcements
  import opened References
  import opened Ownership
  import opened Completions

  /** A datagram with a payload and an address that has an IP and a port, or a buffer for a known remote. */
  predicate Acceptable(c: Config, m: Message) {
    match m
    case DatagramMessage(p, a, _) => p.Some? && a.ip.Some? && 0 <= a.port <= 65535
    case BufMessage(_) => c.remote.ip.Some? && 0 <= c.remote.port <= 65535
    case _ => false
  }

  /** The references a message carries, once each. */
  function Carried(m: Message): multiset<Resource> {
    match m
    case DatagramMessage(p, _, e) =>
      (if p.Some? then multiset{BufRef(p.value.id)} else multiset{})
      + (if e.Some? then multiset{EnvelopeRef(e.value)} else multiset{})
    case NilDatagram => multiset{}
    case BufMessage(b) => multiset{BufRef(b.id)}
    case OtherMessage(owned) => multiset(owned)
  }

  lemma CarriedIs(m: Message)
    ensures multiset(MessageOwned(m)) == Carried(m)
  {
  }

  /** The log starts with that of `s`, then says that `d` was queued, after all that had been told by then. */
  ghost predicate QueuedNext(s: State, d: Datagram, r: State) {
    && s.log.accepted + [d] <= r.log.accepted
    && s.log.queuedAfter + [|s.log.events|] <= r.log.queuedAfter
    && s.log.events <= r.log.events
  }

  /**
   * A write succeeds exactly on an open endpoint with an acceptable message. A datagram is then queued as it is, with
   * its address and its envelope, and a buffer for the remote; nothing else comes before it, whatever handlers write
   * when they are told of the flag. A write that fails gives up each reference of the message once and does nothing else.
   */
  lemma WriteExactly(c: Config, s: State, m: Message)
    requires Core(c, s) && Carried(m) <= s.w.held
    ensures var o := Write(c, s, m);
            && o.error == (if !Acceptable(c, m) then Some(ErrInvalidDatagram) else if s.closed then Some(ErrServerClosed) else None)
            && (o.error.None? && m.DatagramMessage? ==> QueuedNext(s, Datagram(m.payload.value, m.addr, m.envelope), o.s))
            && (o.error.None? && m.BufMessage? ==> QueuedNext(s, Datagram(m.buf, c.remote, None), o.s))
            && (o.error.Some? ==>
                  && o.s == s.(w := o.s.w) && o.s.w.refs == s.w.refs - Carried(m) && o.s.w.held == s.w.held - Carried(m))
  {
    hide Enqueue; hide Core; hide QueuedNext; hide Owned;
    CarriedIs(m);
    match RequestedDatagram(c, m)
    case None =>
    case Some(d) =>
      RequestedOwned(c, m);
      if !s.closed { EnqueuedNext(c, s, d); }
  }

  lemma EnqueuedNext(c: Config, s: State, d: Datagram)
    requires Core(c, s) && !s.closed && multiset(Owned(d)) <= s.w.held
    ensures QueuedNext(s, d, Enqueue(c, s, d)) && Core(c, Enqueue(c, s, d))
  {
    hide Core; hide Settled; hide Appended; hide UpdateWritability; hide Owned; hide Past;
    CoreStep(c, Append(d), s);
    var t := Appended(s, d);
    UpdateGrows(c, t);
    SettledGrows(c, t);
    PastTrans(t.log, Settled(c, t), UpdateWritability(c, t));
    AppendedNext(s, d, UpdateWritability(c, t));
  }

  lemma AppendedNext(s: State, d: Datagram, r: State)
    requires Past(Appended(s, d).log, r)
    ensures QueuedNext(s, d, r)
  {
    hide Owned;
  }

  /** What has been queued stays on record. */
  lemma NextStays(s: State, d: Datagram, t: State, r: State)
    requires QueuedNext(s, d, t) && Past(t.log, r)
    ensures QueuedNext(s, d, r)
  {
  }

  // ---- echoes ----

  /** The handler's first action is to write back what it has just been told of. */
  ghost predicate Echoes(t: State) {
    && t.log.events != [] && t.w.script != []
    && var e := t.log.events[|t.log.events| - 1];
       e.ChannelRead? && t.w.script[0] == DoWrite(DatagramMessage(Some(e.payload), e.from, e.envelope))
  }

  /**
   * A handler that writes back the datagram it is told of queues that datagram: the buffer it received, for the sender
   * it received it from, in the envelope it came in.
   */
  lemma HandlerEchoes(c: Config, s: State, m: Inbound) returns (e: Event)
    requires Core(c, s) && c.hasChannel && BufRef(m.payload.id) in s.w.inHand && !s.closed
    requires m.from.family != Unspecified && 0 <= m.from.port <= MAX_PORT && Echoes(Arrived(c, s, m))
    ensures var r := FireChannelRead(c, s, m);
            && Tells(c, e, m) && s.log.events + [e] <= r.log.events && Core(c, r)
            && s.log.accepted + [Datagram(m.payload, e.from, e.envelope)] <= r.log.accepted
            && s.log.queuedAfter + [|s.log.events| + 1] <= r.log.queuedAfter
  {
    hide Core; hide Arrived; hide RunHandler; hide React;
    e := ArrivedTells(c, s, m);
    ArrivedCore(c, s, m);
    var t := Arrived(c, s, m);
    var t1 := t.(w := t.w.(script := t.w.script[1..]));
    var d := Datagram(m.payload, e.from, e.envelope);
    ScriptCore(c, t, t1.w);
    var r1 := React(c, t1, t.w.script[0]);
    WrittenNext(c, t1, DatagramMessage(Some(e.payload), e.from, e.envelope), d);
    RunHandlerGrows(c, r1);
    FirstAction(c, t);
    NextStays(t1, d, r1, RunHandler(c, r1));
  }

  lemma ScriptCore(c: Config, s: State, w: World)
    requires Core(c, s) && w == s.w.(script := w.script)
    ensures Core(c, s.(w := w))
  {
  }

  lemma FirstAction(c: Config, s: State)
    requires s.w.script != [] && s.w.script[0] != Return
    ensures RunHandler(c, s) == RunHandler(c, React(c, s.(w := s.w.(script := s.w.script[1..])), s.w.script[0]))
  {
    hide React;
  }

  lemma WrittenNext(c: Config, s: State, m: Message, d: Datagram)
    requires Core(c, s) && !s.closed && Carried(m) <= s.w.held && Acceptable(c, m)
    requires m.DatagramMessage? && d == Datagram(m.payload.value, m.addr, m.envelope)
    ensures QueuedNext(s, d, React(c, s, DoWrite(m))) && Core(c, React(c, s, DoWrite(m)))
  {
    hide Core; hide Write; hide QueuedNext;
    CarriedIs(m);
    WriteExactly(c, s, m);
    ReactGrows(c, s, DoWrite(m));
  }

  /**
   * Of a completion endpoint with pooled datagrams, in any run: after a report of data to an echoing handler, and for
   * as long as the echo waits in the queue, whatever happens meanwhile, it is queued as received, so that
   * `EchoGoesBack` says where it goes.
   */
  lemma EchoRun(c: Config, before: seq<Step>, data: seq<Byte>, from: SocketAddress, after: seq<Step>)
    requires var s := Run(c, Initial(), before);
             && c.mode == Completion && c.hasChannel && c.pooled && !s.closed && s.w.pendingReads != []
             && |data| > 0 && from.family != Unspecified && 0 <= from.port <= MAX_PORT
             && Echoes(Arrived(c, ReadReturned(s), Inbound(Buf(s.w.pendingReads[0], data), from)))
    ensures var s := Run(c, Initial(), before);
            var r := Run(c, Initial(), before + [Report(ReadDone(data, from, None))] + after);
            var n := |s.log.accepted|;
            && n < |r.log.accepted| && r.log.accepted[n].payload == Buf(s.w.pendingReads[0], data)
            && (|r.log.gone| <= n < |r.log.gone| + |r.queue| ==> QueuedAsReceived(r, n - |r.log.gone|, from))
  {
    hide Run; hide Kept; hide HandleReadCompletion; hide Arrived; hide ReadReturned; hide Echoes; hide Past; hide Next;
    hide QueuedAsReceived;
    var s := Run(c, Initial(), before);
    var step := Report(ReadDone(data, from, None));
    RunKept(c, before);
    RunKept(c, before + [step]);
    RunKept(c, before + [step] + after);
    KeptFacts(c, s);
    RunConcat(c, Initial(), before + [step], after);
    RunSnoc(c, Initial(), before, step);
    var u := Run(c, Initial(), before + [step]);
    KeptFacts(c, u);
    var t, e := ReportEchoes(c, s, data, from);
    ReportIs(c, s, data, from);
    RunGrows(c, u, after);
    var r := Run(c, u, after);
    KeptFacts(c, r);
    PastTrans(t.log, u, r);
    EchoStays(c, s, t, r, e, Buf(s.w.pendingReads[0], data), from);
  }

  lemma KeptFacts(c: Config, s: State)
    requires Kept(c, s)
    ensures Core(c, s) && Dated(s)
  {
  }

  lemma ReportIs(c: Config, s: State, data: seq<Byte>, from: SocketAddress)
    requires c.mode == Completion && c.hasChannel && s.w.pendingReads != []
    ensures Next(c, s, Report(ReadDone(data, from, None))) == HandleReadCompletion(c, s, data, from, None)
  {
    hide HandleReadCompletion;
  }

  /** The report reaches the handler, its echo is queued, and nothing that follows changes that. */
  lemma ReportEchoes(c: Config, s: State, data: seq<Byte>, from: SocketAddress) returns (t: State, e: Event)
    requires Core(c, s) && c.mode == Completion && c.hasChannel && !s.closed && s.w.pendingReads != []
    requires |data| > 0 && from.family != Unspecified && 0 <= from.port <= MAX_PORT
    requires Echoes(Arrived(c, ReadReturned(s), Inbound(Buf(s.w.pendingReads[0], data), from)))
    ensures Tells(c, e, Inbound(Buf(s.w.pendingReads[0], data), from)) && Echoed(s, t, e, Buf(s.w.pendingReads[0], data))
    ensures Past(t.log, HandleReadCompletion(c, s, data, from, None))
  {
    hide Core; hide HandleReadCompletion; hide Arrived; hide FireChannelRead; hide Echoes;
    var m := Inbound(Buf(s.w.pendingReads[0], data), from);
    var s1 := ReadReturned(s);
    CoreStep(c, ReturnRead, s);
    ReturnedHand(s);
    e := HandlerEchoes(c, s1, m);
    t := FireChannelRead(c, s1, m);
    AfterDelivery(c, s, data, from);
  }

  /** An echo of what was told by `e` has been queued since `s`. */
  ghost predicate Echoed(s: State, t: State, e: Event, b: Buf) {
    && e.ChannelRead? && s.log.events + [e] <= t.log.events
    && s.log.accepted + [Datagram(b, e.from, e.envelope)] <= t.log.accepted
    && s.log.queuedAfter + [|s.log.events| + 1] <= t.log.queuedAfter
  }

  lemma EchoStays(c: Config, s: State, t: State, r: State, e: Event, b: Buf, from: SocketAddress)
    requires Dated(s) && Dated(r) && Echoed(s, t, e, b) && Past(t.log, r) && Names(e.from, from) && e.envelope.Some?
    ensures var n := |s.log.accepted|;
            && n < |r.log.accepted| && r.log.accepted[n].payload == b
            && (|r.log.gone| <= n < |r.log.gone| + |r.queue| ==> QueuedAsReceived(r, n - |r.log.gone|, from))
  {
    hide Names;
    var n, k := |s.log.accepted|, |s.log.events|;
    assert r.log.accepted[n] == Datagram(b, e.from, e.envelope) && r.log.queuedAfter[n] == k + 1;
    assert r.log.events[..k + 1] == s.log.events + [e];
    assert LastSender(s.log.events + [e], e.envelope.value) == Some(e.from);
  }
}
