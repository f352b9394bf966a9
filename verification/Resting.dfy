/** Between calls an endpoint is at rest, whatever handlers did in the middle of them. */
module Resting {
  import opened Wrappers
  import opened Addresses
  import opened World
  import opened EndpointState
  import opened EndpointSpec
  import opened Receiving
  import opened Frames
  import opened Preservation
  import opened Runs

  /** A call or an event leaves no reference in hand, no flush running and no batch half dispatched. */
  predicate Restored(c: Config, s: State, r: State) {
    && r.w.inHand == s.w.inHand && r.log.depth == s.log.depth && r.log.reading == s.log.reading
    && (s.closed ==> r.closed) && (Whole(c, s) ==> Whole(c, r))
  }

  lemma FailHand(c: Config, s: State, e: Error)
    requires Sound(s)
    ensures Restored(c, s, Close(c, Fire(c, s, Exception(e))).s)
  {
    hide Fire; hide Close; hide Base; hide Framed;
    FireFramed(c, s, Exception(e));
    var t := Fire(c, s, Exception(e));
    BaseHand(c, s, t);
    CloseFramed(c, t);
    FramedHand(c, t, Close(c, t).s);
  }

  lemma BaseHand(c: Config, s: State, r: State)
    requires Base(c, s, r)
    ensures Restored(c, s, r) && (Sound(s) ==> Sound(r))
  {
  }

  lemma FramedHand(c: Config, s: State, r: State)
    requires Framed(c, s, r)
    ensures Restored(c, s, r) && (Sound(s) ==> Sound(r)) && Base(c, s, r)
  {
  }

  lemma ReturnedThenLost(c: Config, s: State)
    requires s.w.pendingWrites != []
    ensures var r := LoseRef(WriteReturned(s), s.w.pendingWrites[0].payload.id);
            Restored(c, s, r) && r.closed == s.closed && (Sound(s) ==> Sound(r)) && r.queue == s.queue
  {
    assert s.w.inHand + multiset{BufRef(s.w.pendingWrites[0].payload.id)} - multiset{BufRef(s.w.pendingWrites[0].payload.id)}
        == s.w.inHand;
  }

  lemma WriteCompletionHand(c: Config, s: State, error: Option<Error>)
    requires Sound(s) && s.w.pendingWrites != [] && c.mode == Completion
    ensures Restored(c, s, HandleWriteCompletion(c, s, error))
  {
    hide Fire; hide Close; hide Dequeue; hide SubmitWrite; hide Base; hide Framed; hide LoseRef; hide WriteReturned;
    hide Sound; hide Whole;
    ReturnedThenLost(c, s);
    var s2 := LoseRef(WriteReturned(s), s.w.pendingWrites[0].payload.id);
    if !s.closed {
      if error.Some? { FailHand(c, s2, error.value); } else {
        var s3 := Dequeue(c, s2);
        DequeueBase(c, s2);
        BaseHand(c, s2, s3);
        if s3.queue != [] {
          SubmitWriteFramed(c, s3);
          var o := SubmitWrite(c, s3);
          FramedHand(c, s3, o.s);
          if o.error.Some? { FailHand(c, o.s, o.error.value); }
        } else {
          FireFramed(c, s3, FlushComplete);
          BaseHand(c, s3, Fire(c, s3, FlushComplete));
        }
      }
    }
  }

  lemma ReadReturnedHand(c: Config, s: State, m: Inbound)
    requires s.w.pendingReads != [] && m.payload.id == s.w.pendingReads[0]
    ensures var r := ReadReturned(s);
            && Restored(c, s, LoseRef(r, m.payload.id)) && Restored(c, s, Given(r, Refs([m]), [m]))
            && r.closed == s.closed && (Sound(s) ==> Sound(r) && Sound(LoseRef(r, m.payload.id)))
  {
    hide Restored; hide Refs;
    RefsSplit([m]);
    var r := ReadReturned(s);
    assert s.w.inHand + multiset{BufRef(s.w.pendingReads[0])} - multiset{BufRef(s.w.pendingReads[0])} == s.w.inHand;
    SameRest(c, s, LoseRef(r, m.payload.id));
    SameRest(c, s, Given(r, Refs([m]), [m]));
  }

  lemma SameRest(c: Config, s: State, r: State)
    requires r.w.inHand == s.w.inHand && r.log.depth == s.log.depth && r.log.reading == s.log.reading
    requires r.closed == s.closed && r.queue == s.queue && r.spare == s.spare && r.writable == s.writable
    requires r.inactiveFired == s.inactiveFired && r.log.fdCloses == s.log.fdCloses
    requires r.log.allocatorCloses == s.log.allocatorCloses
    ensures Restored(c, s, r)
  {
  }

  lemma ReadCompletionHand(c: Config, s: State, data: seq<Byte>, from: SocketAddress, error: Option<Error>)
    requires Sound(s) && s.w.pendingReads != [] && c.mode == Completion && c.hasChannel
    ensures Restored(c, s, HandleReadCompletion(c, s, data, from, error))
  {
    hide Fire; hide Close; hide FireChannelRead; hide SubmitRead; hide Base; hide Framed; hide LoseRef; hide ReadReturned;
    hide Sound; hide Given; hide Refs;
    var id := s.w.pendingReads[0];
    var m := Inbound(Buf(id, data), from);
    ReadReturnedHand(c, s, m);
    var s1 := ReadReturned(s);
    if !s.closed {
      if error.Some? { FailHand(c, LoseRef(s1, id), error.value); } else {
        var t := FireChannelRead(c, s1, m);
        FireChannelReadFramed(c, s1, m);
        FramedHand(c, Given(s1, Refs([m]), [m]), t);
        GivenSound(s1, Refs([m]), [m]);
        FireFramed(c, t, ReadComplete);
        BaseHand(c, t, Fire(c, t, ReadComplete));
        var s2 := if |data| > 0 && from.Valid() then Fire(c, t, ReadComplete) else LoseRef(s1, id);
        if !s2.closed && s2.w.autoRead {
          SubmitReadFramed(c, s2);
          var o := SubmitRead(c, s2);
          FramedHand(c, s2, o.s);
          if o.error.Some? { FailHand(c, o.s, o.error.value); }
        }
      }
    }
  }

  lemma ReadyHand(c: Config, s: State, ev: PollEvent)
    requires Sound(s) && ev.Ready? && c.mode != Completion
    ensures Restored(c, s, HandleEvent(c, s, ev))
  {
    hide Fire; hide Close; hide ReadReady; hide FlushOutbound; hide Base; hide Framed;
    if !s.closed {
      if ev.error.Some? { FailHand(c, s, ev.error.value); }
      else if ev.hangup { CloseFramed(c, s); FramedHand(c, s, Close(c, s).s); }
      else {
        var s1 := if ev.canRead && (!c.hasChannel || s.w.autoRead) then ReadReady(c, s) else s;
        ReadPartHand(c, s);
        assert Restored(c, s, s1) && Whole(c, s1);
        FlushOutboundBase(c, s1);
        var o := FlushOutbound(c, s1);
        BaseHand(c, s1, o.s);
        if o.error.Some? { FailHand(c, o.s, o.error.value); }
      }
    }
  }

  lemma ReadPartHand(c: Config, s: State)
    requires Sound(s) && !s.closed && c.mode != Completion
    ensures Restored(c, s, ReadReady(c, s)) && Whole(c, ReadReady(c, s))
  {
    hide ReadLoop; hide Fire;
    if !s.log.reading { ReadReadyFramed(c, s); }
  }

  lemma NextHand(c: Config, s: State, step: Step)
    requires Sound(s)
    ensures Restored(c, s, Next(c, s, step))
  {
    hide React; hide HandleWriteCompletion; hide HandleReadCompletion; hide Close; hide Framed; hide Sound;
    match step
    case Call(action) => ReactFramed(c, s, action); FramedHand(c, s, React(c, s, action));
    case Provide(w) =>
    case Report(event) =>
      if Deliverable(c, s, event) {
        match event
        case Ready(_, _, _, _) => ReadyHand(c, s, event);
        case WriteDone(error) => WriteCompletionHand(c, s, error);
        case ReadDone(data, from, error) => ReadCompletionHand(c, s, data, from, error);
        case CloseDone => CloseFramed(c, s); FramedHand(c, s, Close(c, s).s);
      }
  }

  predicate AtRest(c: Config, s: State) {
    Whole(c, s) &&  s.w.inHand == multiset{} && s.log.depth == 0 && !s.log.reading
  }

  /** Between calls the endpoint is at rest. */
  lemma RunAtRest(c: Config, steps: seq<Step>)
    ensures AtRest(c, Run(c, Initial(), steps))
  {
    hide Run;
    assert Core(c, Initial());
    AtRestFrom(c, Initial(), steps);
  }

  lemma {:induction false} AtRestFrom(c: Config, s: State, steps: seq<Step>)
    requires Core(c, s) && AtRest(c, s)
    ensures AtRest(c, Run(c, s, steps))
    decreases |steps|
  {
    hide Next; hide Core;
    if steps != [] {
      CoreSound(c, s);
      NextHand(c, s, steps[0]);
      NextCore(c, s, steps[0]);
      AtRestFrom(c, Next(c, s, steps[0]), steps[1..]);
    }
  }

  lemma CoreSound(c: Config, s: State)
    requires Core(c, s)
    ensures Sound(s)
  {
  }

  lemma NextCore(c: Config, s: State, step: Step)
    requires Core(c, s)
    ensures Core(c, Next(c, s, step))
  {
    hide Next; hide Invariant; hide Core;
    CoreInvariant(c);
    NextPreserves(c, s => Core(c, s), s, step);
  }
}
