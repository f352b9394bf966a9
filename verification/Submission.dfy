/**
 * What a completion poller is given, over whole runs: every accepted datagram in order, none left out. A datagram is
 * submitted again in one case only: its write fails, and a handler that is told of the failure flushes.
 */
module Submission {
  import opened Wrappers
  import opened Addresses
  import opened World
  import opened EndpointState
  import opened EndpointSpec
  import opened Receiving
  import opened Frames
  import opened Preservation
  import opened Runs
  import opened Resting
  import opened Delivery

  // ---- the positions submitted ----

  /** Starts at 0, never decreases and skips nothing. */
  ghost predicate Climbs(xs: seq<nat>) {
    && (xs != [] ==> xs[0] == 0)
    && forall i :: 0 <= i < |xs| - 1 ==> xs[i + 1] == xs[i] || xs[i + 1] == xs[i] + 1
  }

  ghost predicate Repeats(xs: seq<nat>) { exists i :: 0 <= i < |xs| - 1 && xs[i + 1] == xs[i] }

  /** How many different positions there are. */
  function Reach(xs: seq<nat>): nat { if xs == [] then 0 else xs[|xs| - 1] + 1 }

  ghost predicate Submitted(s: State) {
    Climbs(s.log.sentAt) && (!s.closed ==> Reach(s.log.sentAt) == |s.log.gone| + s.log.inFlight)
  }

  lemma SameSubmitted(s: State, r: State)
    requires Submitted(s) && r.log.sentAt == s.log.sentAt
    requires r.closed || (r.closed == s.closed && |r.log.gone| + r.log.inFlight == |s.log.gone| + s.log.inFlight)
    ensures Submitted(r)
  {
  }

  lemma OfferedSubmitted(s: State, to: SocketAddress)
    requires Submitted(s) && !s.closed && s.queue != [] && s.log.inFlight <= 1
    ensures Submitted(WriteSubmitted(s, to))
  {
    var xs, g := s.log.sentAt, |s.log.gone|;
    var ys := WriteSubmitted(s, to).log.sentAt;
    assert ys == xs + [g];
    forall i | 0 <= i < |ys| - 1 ensures ys[i + 1] == ys[i] || ys[i + 1] == ys[i] + 1 {
      if i < |xs| - 1 { assert ys[i] == xs[i] && ys[i + 1] == xs[i + 1]; }
    }
  }

  lemma PoppedSubmitted(s: State)
    requires Submitted(s) && s.queue != [] && (s.closed || s.log.inFlight > 0)
    ensures Submitted(Popped(s))
  {
    hide Climbs; hide ReleaseAll;
  }

  lemma SettledSubmitted(c: Config, s: State)
    requires Submitted(s)
    ensures Submitted(Settled(c, s))
  {
    hide Submitted;
    SettledLog(c, s);
    SameSubmitted(s, Settled(c, s));
  }

  lemma AppendedSubmitted(s: State, d: Datagram)
    requires Submitted(s)
    ensures Submitted(Appended(s, d))
  {
    hide Climbs; hide Owned;
  }

  lemma CompletedSubmitted(s: State)
    requires Submitted(s) && s.queue != [] && s.w.pendingWrites != [] && !s.closed && s.log.inFlight > 0
    ensures Submitted(WriteCompleted(s))
  {
    hide Submitted; hide Popped;
    var t := LoseRef(WriteReturned(s), s.w.pendingWrites[0].payload.id);
    SameSubmitted(s, t);
    PoppedSubmitted(t);
  }

  lemma MarkedSubmitted(c: Config, s: State, m: Mark)
    requires Submitted(s)
    ensures Submitted(Marked(c, m, s))
  {
    hide Submitted;
    SameSubmitted(s, Marked(c, m, s));
  }

  lemma SubmittedStep(c: Config, a: Atom, s: State)
    requires Enabled(c, a, s) && Submitted(s) && Core(c, s) && c.mode == Completion
    ensures Submitted(Apply(c, a, s))
  {
    hide Settled; hide Movable; hide Move; hide Marked; hide Owned; hide Popped; hide Appended; hide WriteCompleted;
    hide Markable; hide ToSocketAddress; hide Core; hide WriteSubmitted; hide Submitted; hide Interested; hide Batched;
    match a
    case Append(d) => AppendedSubmitted(s, d); SettledSubmitted(c, Appended(s, d));
    case Pop => PoppedSubmitted(s); SettledSubmitted(c, Popped(s));
    case CompleteWrite => OneAhead(c, s); CompletedSubmitted(s); SettledSubmitted(c, WriteCompleted(s));
    case BeginClose => SameSubmitted(s, s.(closed := true)); SettledSubmitted(c, s.(closed := true));
    case WriteOffered(to) => OneAhead(c, s); OfferedSubmitted(s, to);
    case ReadOffered(id) => SameSubmitted(s, ReadSubmitted(s, id));
    case ReturnWrite => ReturnedLog(s); SameSubmitted(s, WriteReturned(s));
    case ReturnRead => SameSubmitted(s, ReadReturned(s));
    case Note(m) => MarkedSubmitted(c, s, m);
    case Hold(h) => SameSubmitted(s, s.(w := Move(h, s.w)));
    case Batch(_) =>
    case Interest(_) =>
  }

  lemma SubmittedInvariant(c: Config)
    requires c.mode == Completion
    ensures Invariant(c, s => Core(c, s) && Submitted(s))
  {
    hide Core; hide Submitted; hide Apply; hide Enabled;
    forall a: Atom, s: State | Enabled(c, a, s) && Core(c, s) && Submitted(s)
      ensures Core(c, Apply(c, a, s)) && Submitted(Apply(c, a, s))
    {
      CoreStep(c, a, s);
      SubmittedStep(c, a, s);
    }
  }

  // ---- handlers that submit ----

  /** A flush in this state submits the head, and the poller accepts it. */
  predicate Offers(c: Config, s: State) {
    && !s.closed && !s.writePending && s.queue != []
    && ToSocketAddress(c.ifaces, s.queue[0].addr).Success? && NextAnswer(s.w) == Accepted
  }

  /** Some handler flushes during a callback, and the poller accepts what it submits. */
  ghost predicate HandlerSubmits(c: Config, s: State)
    decreases Work(s), |s.w.script|, 0
  {
    && s.w.script != [] && s.w.script[0] != Return
    && var s1 := s.(w := s.w.(script := s.w.script[1..]));
       ActionSubmits(c, s1, s.w.script[0]) || HandlerSubmits(c, React(c, s1, s.w.script[0]))
  }

  /** A write may tell handlers that the endpoint has become unwritable; after Close no flush submits. */
  ghost predicate ActionSubmits(c: Config, s: State, action: Reaction)
    decreases Work(s) + 1, |s.w.script|, 12
  {
    match action
    case DoFlush => Offers(c, s)
    case DoWrite(m) =>
      && Owns(s.w, m) && RequestedDatagram(c, m).Some? && !s.closed
      && var s1 := Appended(s, RequestedDatagram(c, m).value);
         var t := Settled(c, s1);
         c.hasChannel && t.writable != s.writable && HandlerSubmits(c, t)
    case _ => false
  }

  /** What has become of a head whose write failed: submitted once more, or as it was. */
  ghost predicate After(s: State, r: State, submits: bool) {
    if submits then r.log.resent && Idle(r) else r.log.resent == s.log.resent && (r.closed || !Idle(r))
  }

  lemma {:induction false} ClosedNever(c: Config, s: State)
    requires s.closed
    ensures !HandlerSubmits(c, s)
    decreases Work(s), |s.w.script|, 0
  {
    hide React; hide ActionSubmits;
    if s.w.script != [] && s.w.script[0] != Return {
      var s1 := s.(w := s.w.(script := s.w.script[1..]));
      ClosedAction(c, s1, s.w.script[0]);
      ReactFramed(c, s1, s.w.script[0]);
      StaysClosed(c, s1, React(c, s1, s.w.script[0]));
      ClosedNever(c, React(c, s1, s.w.script[0]));
    }
  }

  lemma StaysClosed(c: Config, s: State, r: State)
    requires Framed(c, s, r) && s.closed
    ensures r.closed && r.log == s.log
  {
  }

  lemma ClosedAction(c: Config, s: State, action: Reaction)
    requires s.closed
    ensures !ActionSubmits(c, s, action)
  {
  }

  lemma IdleKept(c: Config, s: State, r: State)
    requires Base(c, s, r) && c.mode == Completion && Idle(s)
    ensures Idle(r) && r.log.resent == s.log.resent
  {
  }

  /** During a callback the head is submitted again exactly if a handler flushes and the poller accepts. */
  lemma {:induction false} RunSubmits(c: Config, s: State)
    requires Sound(s) && c.mode == Completion && !Idle(s)
    ensures After(s, RunHandler(c, s), HandlerSubmits(c, s))
    decreases Work(s), |s.w.script|, 0
  {
    hide React; hide ActionSubmits; hide Framed; hide Base; hide Sound;
    if s.w.script != [] {
      var s1 := s.(w := s.w.(script := s.w.script[1..]));
      SoundWorld(s, s1.w);
      if s.w.script[0] != Return {
        var s2 := React(c, s1, s.w.script[0]);
        ActionExactly(c, s1, s.w.script[0]);
        ReactFramed(c, s1, s.w.script[0]);
        FramedHand(c, s1, s2);
        RunHandlerFramed(c, s2);
        FramedHand(c, s2, RunHandler(c, s2));
        if ActionSubmits(c, s1, s.w.script[0]) { IdleKept(c, s2, RunHandler(c, s2)); }
        else if s2.closed { ClosedNever(c, s2); StaysClosed(c, s2, RunHandler(c, s2)); }
        else { RunSubmits(c, s2); }
      }
    }
  }

  lemma SoundWorld(s: State, w: World)
    requires Sound(s)
    ensures Sound(s.(w := w))
  {
  }

  lemma {:induction false} ActionExactly(c: Config, s: State, action: Reaction)
    requires Sound(s) && c.mode == Completion && !Idle(s)
    ensures After(s, React(c, s, action), ActionSubmits(c, s, action))
    decreases Work(s) + 1, |s.w.script|, 12
  {
    hide Write; hide Flush; hide Read; hide Close; hide Handle; hide Owns; hide RequestedDatagram; hide HandlerSubmits;
    match action
    case DoFlush => FlushExactly(c, s);
    case DoWrite(m) => if Owns(s.w, m) { WriteExactly(c, s, m); }
    case DoRead => ReadExactly(c, s);
    case DoClose => hide Framed; CloseFramed(c, s);
    case _ =>
  }

  lemma FlushExactly(c: Config, s: State)
    requires c.mode == Completion && !Idle(s)
    ensures After(s, Flush(c, s).s, Offers(c, s))
  {
    hide ToSocketAddress; hide FlushOutbound;
  }

  lemma ReadExactly(c: Config, s: State)
    requires c.mode == Completion && !Idle(s)
    ensures After(s, Read(c, s).s, false)
  {
    hide ReadReady; hide OfferRead; hide AcquireBuf;
    if !s.readPending && c.hasAllocator {
      var got := AcquireBuf(s.w);
      if got.1.Some? { OfferReadFields(s.(w := got.0), got.1.value); }
    }
  }

  lemma {:induction false} WriteExactly(c: Config, s: State, m: Message)
    requires Sound(s) && c.mode == Completion && !Idle(s)
    ensures After(s, Write(c, s, m).s,
                  && RequestedDatagram(c, m).Some? && !s.closed
                  && var t := Settled(c, Appended(s, RequestedDatagram(c, m).value));
                     c.hasChannel && t.writable != s.writable && HandlerSubmits(c, t))
    decreases Work(s) + 1, |s.w.script|, 5
  {
    hide RunHandler; hide HandlerSubmits; hide RequestedDatagram; hide Owned; hide DropAll; hide UpdateWritability;
    hide Settled; hide Appended;
    var q := RequestedDatagram(c, m);
    if q.Some? {
      var s1 := Appended(s, q.value);
      var t := Settled(c, s1);
      AppendedFields(s, q.value);
      UpdateIs(c, s1);
      SettledFields(c, s1);
      SettledLog(c, s1);
      assert !Idle(t) && Sound(t) && |t.w.script| == |s.w.script| && Work(t) == Work(s) + 1;
      if c.hasChannel && t.writable != s.writable { RunSubmits(c, t); }
    }
  }

  // ---- whole runs ----

  /** A handler told that its write has failed flushes, and the poller accepts the same datagram again. */
  ghost predicate Reflushed(c: Config, s: State, step: Step) {
    && step.Report? && step.event.WriteDone? && step.event.error.Some? && Deliverable(c, s, step.event)
    && !s.closed && c.hasChannel
    && HandlerSubmits(c, Emit(LoseRef(WriteReturned(s), s.w.pendingWrites[0].payload.id),
                              Exception(step.event.error.value)))
  }

  /** What a step does to repetition, from a state in which nothing submitted has failed. */
  ghost predicate Calm(s: State, r: State, again: bool) {
    && Idle(r) && r.log.resent == (s.log.resent || again) && (again ==> r.closed) && (s.closed ==> r.closed)
  }

  lemma CalmBase(c: Config, s: State, r: State)
    requires Base(c, s, r) && c.mode == Completion && Idle(s)
    ensures Calm(s, r, false) && (Sound(s) ==> Sound(r))
  {
  }

  lemma CalmFail(c: Config, s: State, e: Error)
    requires Sound(s) && c.mode == Completion && Idle(s)
    ensures Calm(s, Close(c, Fire(c, s, Exception(e))).s, false)
  {
    hide Fire; hide Close; hide Base; hide Framed; hide Idle;
    FireFramed(c, s, Exception(e));
    var t := Fire(c, s, Exception(e));
    CalmBase(c, s, t);
    CloseFramed(c, t);
    FramedHand(c, t, Close(c, t).s);
    CalmBase(c, t, Close(c, t).s);
  }

  /** A write that failed: told, perhaps submitted again, and closed. */
  lemma FailedSubmits(c: Config, s: State, e: Error)
    requires Sound(s) && c.mode == Completion && !Idle(s)
    ensures Calm(s, Close(c, Fire(c, s, Exception(e))).s, c.hasChannel && HandlerSubmits(c, Emit(s, Exception(e))))
  {
    hide RunHandler; hide HandlerSubmits; hide Close; hide Framed;
    if c.hasChannel { RunSubmits(c, Emit(s, Exception(e))); }
    var t := Fire(c, s, Exception(e));
    FireFramed(c, s, Exception(e));
    FramedHand(c, s, t);
    CloseFramed(c, t);
  }

  lemma ReturnedFields(s: State)
    requires s.w.pendingWrites != []
    ensures var r := LoseRef(WriteReturned(s), s.w.pendingWrites[0].payload.id);
            && r.log == s.log && r.queue == s.queue && r.closed == s.closed && r.inactiveFired == s.inactiveFired
            && r.writePending == (s.closed && s.writePending)
  {
  }

  lemma WriteCompletionSubmits(c: Config, s: State, error: Option<Error>)
    requires Core(c, s) && c.mode == Completion && Idle(s) && s.w.pendingWrites != []
    ensures Calm(s, HandleWriteCompletion(c, s, error), Reflushed(c, s, Report(WriteDone(error))))
  {
    hide Fire; hide Close; hide Dequeue; hide SubmitWrite; hide Base; hide Framed; hide LoseRef; hide WriteReturned;
    hide HandlerSubmits;
    var s2 := LoseRef(WriteReturned(s), s.w.pendingWrites[0].payload.id);
    ReturnedFields(s);
    if !s.closed {
      assert s.writePending && s.log.inFlight == 1 && s.queue != [];
      if error.Some? { FailedSubmits(c, s2, error.value); } else {
        DequeuedIdle(c, s2);
        var s3 := Dequeue(c, s2);
        if s3.queue != [] {
          SubmitWriteFramed(c, s3);
          var o := SubmitWrite(c, s3);
          FramedHand(c, s3, o.s);
          CalmBase(c, s3, o.s);
          if o.error.Some? { CalmFail(c, o.s, o.error.value); }
        } else {
          FireFramed(c, s3, FlushComplete);
          CalmBase(c, s3, Fire(c, s3, FlushComplete));
        }
      }
    }
  }

  lemma DequeuedIdle(c: Config, s: State)
    requires Sound(s) && !s.closed && s.queue != [] && s.log.inFlight == 1 && c.mode == Completion
    ensures var r := Dequeue(c, s); Sound(r) && Idle(r) && r.log.resent == s.log.resent
  {
    hide UpdateWritability; hide Settled; hide Framed; hide Base; hide Popped;
    var s1 := Popped(s);
    PoppedBase(c, s);
    PoppedCalm(s);
    SettledLog(c, s1);
    SettledFields(c, s1);
    DequeueFramed(c, s);
    FramedHand(c, Settled(c, s1), Dequeue(c, s));
    CalmBase(c, Settled(c, s1), Dequeue(c, s));
  }

  lemma PoppedCalm(s: State)
    requires s.queue != []
    ensures Popped(s).log.resent == s.log.resent && Popped(s).closed == s.closed
  {
  }

  lemma ReadCompletionSubmits(c: Config, s: State, data: seq<Byte>, from: SocketAddress, error: Option<Error>)
    requires Core(c, s) && c.mode == Completion && Idle(s) && s.w.pendingReads != [] && c.hasChannel
    ensures Calm(s, HandleReadCompletion(c, s, data, from, error), false)
  {
    hide Fire; hide Close; hide FireChannelRead; hide SubmitRead; hide Base; hide Framed; hide LoseRef; hide ReadReturned;
    hide Given; hide Refs; hide Core;
    CoreSound(c, s);
    var id := s.w.pendingReads[0];
    var m := Inbound(Buf(id, data), from);
    var s1 := ReadReturned(s);
    ReadFields(s, m);
    if !s.closed {
      if error.Some? { CalmFail(c, LoseRef(s1, id), error.value); } else {
        var t := FireChannelRead(c, s1, m);
        FireChannelReadFramed(c, s1, m);
        FramedHand(c, Given(s1, Refs([m]), [m]), t);
        CalmBase(c, Given(s1, Refs([m]), [m]), t);
        FireFramed(c, t, ReadComplete);
        CalmBase(c, t, Fire(c, t, ReadComplete));
        var s2 := if |data| > 0 && from.Valid() then Fire(c, t, ReadComplete) else LoseRef(s1, id);
        if !s2.closed && s2.w.autoRead { ReadAgainSubmits(c, s2); }
      }
    }
  }

  lemma ReadAgainSubmits(c: Config, s: State)
    requires Sound(s) && c.mode == Completion && Idle(s) && !s.closed
    ensures var o := SubmitRead(c, s);
            Calm(s, if o.error.Some? then Close(c, Fire(c, o.s, Exception(o.error.value))).s else o.s, false)
  {
    hide Fire; hide Close; hide SubmitRead; hide Base; hide Framed;
    SubmitReadFramed(c, s);
    var o := SubmitRead(c, s);
    FramedHand(c, s, o.s);
    CalmBase(c, s, o.s);
    if o.error.Some? { CalmFail(c, o.s, o.error.value); }
  }

  lemma ReadFields(s: State, m: Inbound)
    requires s.w.pendingReads != []
    ensures var r := ReadReturned(s);
            && (Idle(s) ==> Idle(r) && Idle(LoseRef(r, m.payload.id)) && Idle(Given(r, Refs([m]), [m])))
            && (Sound(s) ==> Sound(r) && Sound(LoseRef(r, m.payload.id)) && Sound(Given(r, Refs([m]), [m])))
            && r.closed == s.closed == LoseRef(r, m.payload.id).closed == Given(r, Refs([m]), [m]).closed
            && r.log == s.log == LoseRef(r, m.payload.id).log
            && Given(r, Refs([m]), [m]).log.resent == s.log.resent
  {
    hide Refs;
  }

  lemma NextSubmits(c: Config, s: State, step: Step)
    requires Core(c, s) && c.mode == Completion && Idle(s)
    ensures Calm(s, Next(c, s, step), Reflushed(c, s, step))
  {
    hide React; hide HandleWriteCompletion; hide HandleReadCompletion; hide Close; hide Framed; hide Base; hide Core;
    hide HandlerSubmits;
    CoreSound(c, s);
    match step
    case Call(action) =>
      ReactFramed(c, s, action);
      FramedHand(c, s, React(c, s, action));
      CalmBase(c, s, React(c, s, action));
    case Provide(w) =>
    case Report(event) =>
      if Deliverable(c, s, event) {
        match event
        case WriteDone(error) => WriteCompletionSubmits(c, s, error);
        case ReadDone(data, from, error) => ReadCompletionSubmits(c, s, data, from, error);
        case CloseDone =>
          CloseFramed(c, s);
          FramedHand(c, s, Close(c, s).s);
          CalmBase(c, s, Close(c, s).s);
      }
  }

  /** A prefix of a run. */
  ghost function Until(c: Config, steps: seq<Step>, i: nat): State
    requires i <= |steps|
  {
    Run(c, Initial(), steps[..i])
  }

  ghost predicate SomeReflushed(c: Config, steps: seq<Step>, n: nat)
    requires n <= |steps|
  {
    exists i :: 0 <= i < n && Reflushed(c, Until(c, steps, i), steps[i])
  }

  lemma {:induction false} ResentExactly(c: Config, steps: seq<Step>, n: nat)
    requires c.mode == Completion && n <= |steps|
    ensures var s := Until(c, steps, n);
            && Core(c, s) && Idle(s) && (s.log.resent ==> s.closed)
            && (s.log.resent <==> SomeReflushed(c, steps, n))
    decreases n
  {
    hide Run; hide Next; hide Reflushed; hide Core; hide Invariant;
    assert Core(c, Initial()) by { InitialCore(c); }
    if n == 0 {
      RunNothing(c, Initial());
      assert steps[..0] == [];
    } else {
      ResentExactly(c, steps, n - 1);
      var s := Until(c, steps, n - 1);
      assert steps[..n] == steps[..n - 1] + [steps[n - 1]];
      RunSnoc(c, Initial(), steps[..n - 1], steps[n - 1]);
      NextSubmits(c, s, steps[n - 1]);
      NextCore(c, s, steps[n - 1]);
      assert SomeReflushed(c, steps, n) <==> SomeReflushed(c, steps, n - 1) || Reflushed(c, s, steps[n - 1]);
    }
  }

  lemma InitialCore(c: Config)
    ensures Core(c, Initial())
  {
  }

  /** Climbing without a repetition is counting. */
  lemma {:induction false} CountingUp(xs: seq<nat>, i: nat)
    requires Climbs(xs) && !Repeats(xs) && i < |xs|
    ensures xs[i] == i
    decreases i
  {
    if i > 0 { CountingUp(xs, i - 1); }
  }

  lemma RepeatsExactly(xs: seq<nat>)
    requires Climbs(xs)
    ensures Increasing(xs) <==> !Repeats(xs)
  {
    if !Repeats(xs) {
      forall i, j | 0 <= i < j < |xs| ensures xs[i] < xs[j] {
        CountingUp(xs, i);
        CountingUp(xs, j);
      }
    }
  }

  /**
   * In every run the positions submitted start at 0, never decrease and skip nothing, and each carries the datagram
   * accepted at that position. A position is repeated exactly if, at some step, a handler told of a failed write
   * flushes and the poller accepts; the endpoint is then closed.
   */
  lemma CompletionDelivery(c: Config, steps: seq<Step>)
    requires c.mode == Completion
    ensures var s := Run(c, Initial(), steps);
            && Climbs(s.log.sentAt) && Genuine(s.log)
            && (Repeats(s.log.sentAt) <==> SomeReflushed(c, steps, |steps|))
            && (Repeats(s.log.sentAt) ==> s.closed)
  {
    hide Run; hide Climbs; hide Repeats; hide Genuine; hide Core; hide Invariant; hide Blame; hide SomeReflushed;
    assert steps[..|steps|] == steps;
    ResentExactly(c, steps, |steps|);
    SubmittedInvariant(c);
    InitialCore(c);
    assert Climbs([]) by { NothingClimbs(); }
    RunPreserves(c, s => Core(c, s) && Submitted(s), Initial(), steps);
    ExactlyOnce(c, steps);
    RunOrdered(c, steps);
    RepeatsExactly(Run(c, Initial(), steps).log.sentAt);
  }

  lemma NothingClimbs()
    ensures Climbs([])
  {
  }

  /**
   * While it is open, a completion endpoint has submitted what it accepted exactly once and in order, but for what
   * it still queues; of this only the head has been submitted, and it has exactly while its write is outstanding.
   */
  lemma CompletionOpen(c: Config, steps: seq<Step>)
    requires c.mode == Completion
    ensures var s := Run(c, Initial(), steps);
            !s.closed ==>
              && InSequence(s.log.sentAt)
              && if s.writePending then s.queue != [] && s.log.accepted == s.log.sent + s.queue[1..]
                 else s.log.accepted == s.log.sent + s.queue
  {
    hide Run;
    assert steps[..|steps|] == steps;
    ResentExactly(c, steps, |steps|);
    RunOrdered(c, steps);
    var s := Run(c, Initial(), steps);
    if !s.closed {
      SentPrefix(c, steps);
      if !s.writePending { assert s.queue[0..] == s.queue; }
    }
  }
}
