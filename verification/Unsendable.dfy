/**
 * `Write` accepts an IP of any length, but the encoders only those of 4 and of 16 bytes. On Linux one other among
 * the first 64 datagrams keeps all of them from being sent until the endpoint is closed.
 */
module Unsendable {
  import opened Wrappers
  import opened Addresses
  import opened World
  import opened EndpointState
  import opened EndpointSpec
  import opened Frames
  import opened Preservation
  import opened Runs
  import opened Resting
  import opened Delivery
  import opened Flushing
  import opened Hazards

  /** What `Write` does not look at. */
  lemma SendableExactly(ifaces: map<string, nat>, d: Datagram)
    ensures Sendable(ifaces, d) <==> d.addr.Valid() && (|d.addr.ip.value| == 4 || |d.addr.ip.value| == 16)
  {
    hide ZoneId;
  }

  /** One of the datagrams the next batch is made of cannot be sent. */
  ghost predicate Stuck(c: Config, s: State) {
    exists i :: 0 <= i < Min(MAX_WRITE_BATCH, |s.queue|) && !Sendable(c.ifaces, s.queue[i])
  }

  /** The first send of a flush reports an address exactly if it finds such a datagram, and then sends nothing. */
  lemma FirstSendFails(c: Config, s: State)
    requires c.linux
    ensures FirstSend(c, s).error == Some(ErrInvalidAddress) <==> Stuck(c, s)
    ensures Stuck(c, s) ==> FirstSend(c, s) == SendResult(0, 0, false, Some(ErrInvalidAddress), s.w.sends)
  {
    hide Sendable; hide TakenPrefix;
    var batch := s.queue[..Min(MAX_WRITE_BATCH, |s.queue|)];
    assert forall i :: 0 <= i < |batch| ==> batch[i] == s.queue[i];
    if Stuck(c, s) {
      var i :| 0 <= i < |batch| && !Sendable(c.ifaces, batch[i]);
    }
  }

  /** So the flush reports the error and changes nothing. */
  lemma StuckFlush(c: Config, s: State)
    requires c.linux && c.mode != Completion && !s.closed && Stuck(c, s)
    ensures Flush(c, s) ==
            Outcome(s.(log := s.log.(nested := s.log.nested || s.log.depth > 0)), Some(ErrInvalidAddress))
  {
    hide SendBatch; hide Sendable; hide DequeueN;
    var s0 := StartLoop(s);
    FirstSendFails(c, s0);
    NothingBatched(s0, ErrInvalidAddress);
    assert FlushLoop(c, MAX_WRITE_BATCH, s0) == (s0, SendFailed(ErrInvalidAddress));
  }

  lemma NothingBatched(s: State, e: Error)
    ensures Batched(s, SendResult(0, 0, false, Some(e), s.w.sends)) == s
  {
    assert s.queue[..0] == [] && Positions(|s.log.gone|, 0) == [];
    assert s.log.sent + [] == s.log.sent && s.log.sentAt + [] == s.log.sentAt;
  }

  /** While such a datagram waits nothing is sent, and it waits until the endpoint is closed. */
  ghost predicate Frozen(c: Config, sent: seq<Datagram>, s: State) {
    s.log.sent == sent && (s.closed || (Stuck(c, s) && s.log.inFlight == 0 && !s.log.resent))
  }

  lemma SameFrozen(c: Config, sent: seq<Datagram>, s: State, r: State)
    requires Frozen(c, sent, s) && s.queue <= r.queue && (s.closed ==> r.closed) && r.log.sent == s.log.sent
    requires r.log.inFlight == s.log.inFlight && r.log.resent == s.log.resent
    ensures Frozen(c, sent, r)
  {
    hide Sendable;
    if Stuck(c, s) {
      var i :| 0 <= i < Min(MAX_WRITE_BATCH, |s.queue|) && !Sendable(c.ifaces, s.queue[i]);
      assert r.queue[i] == s.queue[i];
    }
  }

  lemma SettledFrozen(c: Config, sent: seq<Datagram>, s: State)
    requires Frozen(c, sent, s)
    ensures Frozen(c, sent, Settled(c, s))
  {
    hide Frozen; hide Settled;
    SettledLog(c, s);
    SameFrozen(c, sent, s, Settled(c, s));
  }

  lemma AppendedFrozen(c: Config, sent: seq<Datagram>, s: State, d: Datagram)
    requires Frozen(c, sent, s)
    ensures Frozen(c, sent, Appended(s, d))
  {
    hide Frozen; hide Owned;
    SameFrozen(c, sent, s, Appended(s, d));
  }

  /** A datagram leaves the queue only when it has been sent, or after Close. */
  lemma PoppedFrozen(c: Config, sent: seq<Datagram>, s: State)
    requires Frozen(c, sent, s) && Enabled(c, Pop, s)
    ensures Frozen(c, sent, Popped(s))
  {
    hide Popped; hide Stuck;
    PoppedFields(s);
  }

  lemma MarkedFrozen(c: Config, sent: seq<Datagram>, s: State, m: Mark)
    requires Frozen(c, sent, s)
    ensures Frozen(c, sent, Marked(c, m, s))
  {
    hide Frozen;
    SameFrozen(c, sent, s, Marked(c, m, s));
  }

  lemma BatchedFrozen(c: Config, sent: seq<Datagram>, s: State)
    requires Frozen(c, sent, s) && c.linux && !s.closed
    ensures Frozen(c, sent, Batched(s, FirstSend(c, s)))
  {
    hide Stuck; hide FirstSend;
    FirstSendFails(c, s);
    NothingBatched(s, ErrInvalidAddress);
  }

  lemma FrozenStep(c: Config, sent: seq<Datagram>, a: Atom, s: State)
    requires Enabled(c, a, s) && Frozen(c, sent, s) && c.linux && c.mode != Completion
    ensures Frozen(c, sent, Apply(c, a, s))
  {
    hide Settled; hide Move; hide Movable; hide Markable; hide Frozen; hide Owned; hide FirstSend;
    hide Appended; hide Popped; hide Batched; hide WriteCompleted; hide WriteSubmitted; hide SkipAnswer; hide Marked;
    match a
    case Append(d) => AppendedFrozen(c, sent, s, d); SettledFrozen(c, sent, Appended(s, d));
    case Pop => PoppedFrozen(c, sent, s); SettledFrozen(c, sent, Popped(s));
    case Batch(r) => BatchedFrozen(c, sent, s);
    case BeginClose =>
      SameFrozen(c, sent, s, s.(closed := true));
      SettledFrozen(c, sent, s.(closed := true));
    case WriteOffered(_) =>
    case ReadOffered(_) =>
    case CompleteWrite =>
    case Note(m) => MarkedFrozen(c, sent, s, m);
    case _ => SameFrozen(c, sent, s, Apply(c, a, s));
  }

  ghost predicate Waits(c: Config, sent: seq<Datagram>, s: State) { Core(c, s) && Frozen(c, sent, s) }

  lemma FrozenInvariant(c: Config, sent: seq<Datagram>)
    requires c.linux && c.mode != Completion
    ensures Invariant(c, s => Waits(c, sent, s))
  {
    hide Core; hide Frozen; hide Apply; hide Enabled;
    forall a: Atom, s: State | Enabled(c, a, s) && Waits(c, sent, s) ensures Waits(c, sent, Apply(c, a, s)) {
      CoreStep(c, a, s);
      FrozenStep(c, sent, a, s);
    }
  }

  /**
   * After a run (without nested flushes) that leaves such a datagram among the first 64, nothing at all is sent any
   * more, whatever is called and reported and whatever the socket would take: every flush before Close fails.
   */
  lemma StuckUntilClosed(c: Config, before: seq<Step>, after: seq<Step>)
    requires c.linux && c.mode != Completion
    requires var s := Run(c, Initial(), before); !s.closed && !s.log.nested && Stuck(c, s)
    ensures var s := Run(c, Initial(), before);
            var r := Run(c, s, after);
            r.log.sent == s.log.sent && (!r.closed ==> Stuck(c, r) && Flush(c, r).error == Some(ErrInvalidAddress))
  {
    hide Run; hide Invariant; hide Stuck; hide Flush;
    var s := Run(c, Initial(), before);
    RunOrdered(c, before);
    RunAtRest(c, before);
    FrozenInvariant(c, s.log.sent);
    RunPreserves(c, t => Waits(c, s.log.sent, t), s, after);
    var r := Run(c, s, after);
    if !r.closed { StuckFlush(c, r); }
  }

  // ---- an input ----

  const FIVE_BYTES := Address(Some([1, 2, 3, 4, 5]), 9, "")

  function WriteFive(): seq<Step> {
    [Call(DoAllocate), Call(DoWrite(DatagramMessage(Some(Buf(0, [1])), FIVE_BYTES, None)))]
  }

  /** From a new endpoint: a write to an IP of five bytes is accepted, and nothing is ever sent. */
  lemma UnsendableRun(after: seq<Step>)
    ensures var s := Run(Small(true), Initial(), WriteFive());
            && s.queue == [Datagram(Buf(0, [1]), FIVE_BYTES, None)]
            && Run(Small(true), s, after).log.sent == []
  {
    hide Run; hide Next;
    var c := Small(true);
    var steps := WriteFive();
    var m := DatagramMessage(Some(Buf(0, [1])), FIVE_BYTES, None);
    RunFirst(c, Initial(), steps);
    var s1 := Next(c, Initial(), steps[0]);
    OneAllocated(c);
    RunFirst(c, s1, steps[1..]);
    FiveQueued(c, s1);
    RunNothing(c, Next(c, s1, steps[1]));
    assert steps[1..][1..] == [] && steps[1..][0] == Call(DoWrite(m));
    StuckUntilClosed(c, steps, after);
  }

  lemma OneAllocated(c: Config)
    ensures var s := Next(c, Initial(), Call(DoAllocate));
            s == Initial().(w := s.w) && BufRef(0) in s.w.held && s.w.script == []
  {
  }

  lemma FiveQueued(c: Config, s: State)
    requires s == Initial().(w := s.w) && BufRef(0) in s.w.held && s.w.script == [] && c.high == 2
    ensures var d := Datagram(Buf(0, [1]), FIVE_BYTES, None);
            var r := Next(c, s, Call(DoWrite(DatagramMessage(Some(Buf(0, [1])), FIVE_BYTES, None))));
            && r.queue == [d] && !r.closed && !r.log.nested && r.log.sent == [] && Stuck(c, r)
  {
    hide UpdateWritability; hide Settled; hide Appended; hide Sendable;
    var m := DatagramMessage(Some(Buf(0, [1])), FIVE_BYTES, None);
    var d := Datagram(Buf(0, [1]), FIVE_BYTES, None);
    assert MessageOwned(m) == [BufRef(0)];
    assert multiset(MessageOwned(m)) == multiset{BufRef(0)};
    AppendedQuiet(s, d);
    AppendedFive(s, d);
    QuietUpdate(c, Appended(s, d));
    SettledLog(c, Appended(s, d));
    assert RequestedDatagram(c, m) == Some(d);
    assert EndpointSpec.Write(c, s, m).s == Enqueue(c, s, d);
    var r := Next(c, s, Call(DoWrite(m)));
    assert r == Settled(c, Appended(s, d));
    SendableExactly(c.ifaces, d);
    assert r.queue[0] == d;
  }

  lemma AppendedFive(s: State, d: Datagram)
    requires s == Initial().(w := s.w)
    ensures Appended(s, d).queue == [d] && Appended(s, d).log.sent == [] && !Appended(s, d).log.nested
  {
  }
}
