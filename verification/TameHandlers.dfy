/**
 * Handlers that neither flush, read nor close. However much they write, they only lengthen the queue, and it makes no
 * difference to them whether datagrams at its head have been sent.
 */
module TameHandlers {
  import opened Wrappers
  import opened Addresses
  import opened World
  import opened EndpointState
  import opened EndpointSpec
  import opened Frames

  predicate Tame(script: seq<Reaction>) {
    forall i :: 0 <= i < |script| ==> !script[i].DoFlush? && !script[i].DoRead? && !script[i].DoClose?
  }

  /** What they write can be sent. */
  ghost predicate Polite(c: Config, script: seq<Reaction>) {
    forall i :: 0 <= i < |script| && script[i].DoWrite? ==>
      var d := RequestedDatagram(c, script[i].message); d.Some? ==> Sendable(c.ifaces, d.value)
  }

  /** The datagrams queued since. */
  function Since(s: State, r: State): seq<Datagram>
    requires |s.log.accepted| <= |r.log.accepted|
  {
    r.log.accepted[|s.log.accepted|..]
  }

  /** What the pipeline has been told, but for the flag. */
  function Spoken(events: seq<Event>): seq<Event>
    decreases |events|
  {
    if events == [] then [] else
      var last := events[|events| - 1];
      Spoken(events[..|events| - 1]) + (if last.WritabilityChanged? then [] else [last])
  }

  lemma SpokenAppend(events: seq<Event>, x: Event)
    ensures Spoken(events + [x]) == Spoken(events) + (if x.WritabilityChanged? then [] else [x])
  {
    assert (events + [x])[..|events|] == events;
  }

  /** Nothing has been read, told (but for the flag), submitted or asked of the poller in between. */
  ghost predicate Unmoved(s: State, r: State) {
    && r.log.dispatched == s.log.dispatched && Spoken(r.log.events) == Spoken(s.log.events)
    && r.log.depth == s.log.depth && r.log.reading == s.log.reading && r.log.nested == s.log.nested
    && r.writeInterest == s.writeInterest && r.readPending == s.readPending && r.writePending == s.writePending
    && r.w.arrivals == s.w.arrivals && r.w.grants == s.w.grants && r.w.answers == s.w.answers
    && r.w.pendingReads == s.w.pendingReads && r.w.pendingWrites == s.w.pendingWrites
  }

  /** Between the two states something may have been queued (`p`: that can be sent), and handlers have got further. */
  ghost predicate OnlyQueues(c: Config, p: bool, s: State, r: State) { Queueing(c, p, s, r) && Unmoved(s, r) }

  /** What becomes of the queue and of what can be sent when handlers run and nothing is sent. */
  ghost predicate Queueing(c: Config, p: bool, s: State, r: State) {
    && !r.closed && r.w.sends == s.w.sends
    && r.log.gone == s.log.gone && r.log.sent == s.log.sent && r.log.sentAt == s.log.sentAt
    && r.log.inFlight == s.log.inFlight && r.log.resent == s.log.resent && r.log.partial == s.log.partial
    && s.log.accepted <= r.log.accepted && r.queue == s.queue + Since(s, r)
    && (p ==> forall i :: |s.log.accepted| <= i < |r.log.accepted| ==> Sendable(c.ifaces, r.log.accepted[i]))
    && (Tame(s.w.script) ==> Tame(r.w.script)) && (Polite(c, s.w.script) ==> Polite(c, r.w.script))
  }

  lemma OnlyQueuesTrans(c: Config, p: bool, s: State, t: State, r: State)
    requires OnlyQueues(c, p, s, t) && OnlyQueues(c, p, t, r)
    ensures OnlyQueues(c, p, s, r)
  {
    hide Queueing;
    QueueingTrans(c, p, s, t, r);
  }

  lemma QueueingTrans(c: Config, p: bool, s: State, t: State, r: State)
    requires Queueing(c, p, s, t) && Queueing(c, p, t, r)
    ensures Queueing(c, p, s, r)
  {
    hide Sendable; hide Tame; hide Polite;
    assert Since(s, r) == Since(s, t) + Since(t, r);
    forall i | p && |s.log.accepted| <= i < |r.log.accepted| ensures Sendable(c.ifaces, r.log.accepted[i]) {
      if i < |t.log.accepted| { assert r.log.accepted[i] == t.log.accepted[i]; }
    }
  }

  /** Changes to what handlers hold, or to the flag, queue nothing. */
  lemma NothingQueued(c: Config, p: bool, s: State, r: State)
    requires !s.closed && r.closed == s.closed && r.queue == s.queue && r.w.sends == s.w.sends
    requires r.log == s.log.(events := r.log.events, flips := r.log.flips) && Unmoved(s, r)
    requires (Tame(s.w.script) ==> Tame(r.w.script)) && (Polite(c, s.w.script) ==> Polite(c, r.w.script))
    ensures OnlyQueues(c, p, s, r)
  {
    hide Sendable; hide Polite; hide Tame;
    assert Since(s, r) == [];
  }

  lemma SettledQueues(c: Config, p: bool, s: State)
    requires !s.closed
    ensures OnlyQueues(c, p, s, Settled(c, s))
  {
    hide OnlyQueues; hide Tame; hide Polite;
    NothingQueued(c, p, s, Settled(c, s));
  }

  lemma AppendedQueues(c: Config, p: bool, s: State, d: Datagram)
    requires !s.closed && (p ==> Sendable(c.ifaces, d))
    ensures OnlyQueues(c, p, s, Appended(s, d))
  {
    hide Sendable; hide Tame; hide Polite; hide Owned;
    assert Since(s, Appended(s, d)) == [d];
  }

  /** The first action of a script, and the rest. */
  lemma ScriptRest(c: Config, script: seq<Reaction>)
    requires script != []
    ensures Tame(script) ==> Tame(script[1..]) && Tame([script[0]])
    ensures Polite(c, script) ==> Polite(c, script[1..]) && Polite(c, [script[0]])
  {
    hide Sendable; hide RequestedDatagram;
  }

  lemma {:induction false} TameRun(c: Config, p: bool, s: State)
    requires !s.closed && Tame(s.w.script) && (p ==> Polite(c, s.w.script))
    ensures OnlyQueues(c, p, s, RunHandler(c, s))
    decreases Work(s), |s.w.script|, 0
  {
    hide React; hide OnlyQueues; hide Tame; hide Polite;
    if s.w.script == [] { NothingQueued(c, p, s, s); } else {
      var s1 := s.(w := s.w.(script := s.w.script[1..]));
      var a := s.w.script[0];
      ScriptRest(c, s.w.script);
      NothingQueued(c, p, s, s1);
      if a != Return {
        var s2 := React(c, s1, a);
        TameReact(c, p, s1, a);
        QueuesOn(c, p, s1, s2);
        TameRun(c, p, s2);
        OnlyQueuesTrans(c, p, s1, s2, RunHandler(c, s2));
        OnlyQueuesTrans(c, p, s, s1, RunHandler(c, s2));
      }
    }
  }

  /** Told something, such handlers tell no more but of the flag. */
  lemma TameFire(c: Config, p: bool, s: State, x: Event)
    requires !s.closed && Tame(s.w.script) && (p ==> Polite(c, s.w.script)) && !x.WritabilityChanged?
    ensures var t := if c.hasChannel then Emit(s, x) else s;
            && OnlyQueues(c, p, t, Fire(c, s, x))
            && Spoken(t.log.events) == Spoken(s.log.events) + (if c.hasChannel then [x] else [])
  {
    hide RunHandler; hide OnlyQueues; hide Tame; hide Polite;
    var t := if c.hasChannel then Emit(s, x) else s;
    SpokenAppend(s.log.events, x);
    assert Spoken(s.log.events) + [] == Spoken(s.log.events);
    if c.hasChannel { TameRun(c, p, t); } else { NothingQueued(c, p, s, s); }
  }

  lemma QueuesOn(c: Config, p: bool, s: State, r: State)
    requires OnlyQueues(c, p, s, r)
    ensures !r.closed && (Tame(s.w.script) ==> Tame(r.w.script)) && (Polite(c, s.w.script) ==> Polite(c, r.w.script))
    ensures r.log.resent == s.log.resent && r.log.inFlight == s.log.inFlight && r.w.sends == s.w.sends
    ensures |r.queue| >= |s.queue| && Spoken(r.log.events) == Spoken(s.log.events)
  {
    hide Tame; hide Polite;
  }

  lemma {:induction false} TameReact(c: Config, p: bool, s: State, action: Reaction)
    requires !s.closed && Tame(s.w.script) && Tame([action])
    requires p ==> Polite(c, s.w.script) && Polite(c, [action])
    ensures OnlyQueues(c, p, s, React(c, s, action))
    decreases Work(s) + 1, |s.w.script|, 12
  {
    hide Write; hide Owns; hide OnlyQueues; hide Handle; hide Polite; hide RequestedDatagram;
    assert [action][0] == action;
    match action
    case DoWrite(m) =>
      if Owns(s.w, m) { PoliteMessage(c, p, m); TameWrite(c, p, s, m); } else { NothingQueued(c, p, s, s); }
    case _ => HandleSends(s.w, action, s.w.sends); NothingQueued(c, p, s, s.(w := Handle(s.w, action)));
  }

  lemma PoliteMessage(c: Config, p: bool, m: Message)
    requires p ==> Polite(c, [DoWrite(m)])
    ensures p && RequestedDatagram(c, m).Some? ==> Sendable(c.ifaces, RequestedDatagram(c, m).value)
  {
    hide Sendable; hide RequestedDatagram;
    assert [DoWrite(m)][0] == DoWrite(m);
  }

  /** What handlers do to references has nothing to do with the socket. */
  lemma HandleSends(w: World, action: Reaction, sends: seq<SendOutcome>)
    ensures Handle(w.(sends := sends), action) == Handle(w, action).(sends := sends)
    ensures Handle(w, action).sends == w.sends
  {
    hide HandlerBuf; hide Obtain; hide Drop;
    AllocateSends(w, sends);
    match action
    case DoRetain(x) => ObtainSends(w, x, sends);
    case DoRelease(x) => DropSends(w, x, sends);
    case _ =>
  }

  lemma AllocateSends(w: World, sends: seq<SendOutcome>)
    ensures HandlerBuf(w.(sends := sends)) == HandlerBuf(w).(sends := sends) && HandlerBuf(w).sends == w.sends
  {
  }

  lemma ObtainSends(w: World, x: Resource, sends: seq<SendOutcome>)
    ensures Obtain(w.(sends := sends), x) == Obtain(w, x).(sends := sends) && Obtain(w, x).sends == w.sends
  {
  }

  lemma DropSends(w: World, x: Resource, sends: seq<SendOutcome>)
    ensures Drop(w.(sends := sends), x) == Drop(w, x).(sends := sends) && Drop(w, x).sends == w.sends
  {
  }

  lemma DropAllSends(w: World, rs: seq<Resource>, sends: seq<SendOutcome>)
    ensures DropAll(w.(sends := sends), rs) == DropAll(w, rs).(sends := sends) && DropAll(w, rs).sends == w.sends
  {
    hide Envelopes;
  }

  lemma {:induction false} TameWrite(c: Config, p: bool, s: State, m: Message)
    requires !s.closed && Tame(s.w.script) && (p ==> Polite(c, s.w.script))
    requires p && RequestedDatagram(c, m).Some? ==> Sendable(c.ifaces, RequestedDatagram(c, m).value)
    ensures OnlyQueues(c, p, s, Write(c, s, m).s)
    decreases Work(s) + 1, |s.w.script|, 5
  {
    hide RequestedDatagram; hide OnlyQueues; hide Tame; hide Polite; hide Sendable; hide UpdateWritability;
    hide Appended; hide MessageOwned;
    match RequestedDatagram(c, m)
    case None => NothingQueued(c, p, s, s.(w := DropAll(s.w, MessageOwned(m))));
    case Some(d) =>
      AppendedQueues(c, p, s, d);
      AppendedFields(s, d);
      QueuesOn(c, p, s, Appended(s, d));
      TameUpdate(c, p, Appended(s, d));
      OnlyQueuesTrans(c, p, s, Appended(s, d), UpdateWritability(c, Appended(s, d)));
  }

  lemma {:induction false} TameUpdate(c: Config, p: bool, s: State)
    requires !s.closed && Tame(s.w.script) && (p ==> Polite(c, s.w.script))
    ensures OnlyQueues(c, p, s, UpdateWritability(c, s))
    decreases Work(s), |s.w.script|, 3
  {
    hide UpdateWritability; hide Settled; hide OnlyQueues; hide Tame; hide Polite; hide RunHandler;
    var t := Settled(c, s);
    UpdateIs(c, s);
    SettledQueues(c, p, s);
    QueuesOn(c, p, s, t);
    if t.writable != s.writable && c.hasChannel {
      TameRun(c, p, t);
      OnlyQueuesTrans(c, p, s, t, RunHandler(c, t));
    }
  }

  // ---- sending commutes with handlers ----

  lemma ToggleBatched(c: Config, s: State, on: bool, r: SendResult)
    requires r.taken <= |s.queue|
    ensures Toggle(c, Batched(s, r), on) == Batched(Toggle(c, s, on), r)
  {
  }

  /** Sending commutes with the writable flag. */
  lemma SettledBatched(c: Config, s: State, r: SendResult)
    requires r.taken <= |s.queue|
    ensures Settled(c, Batched(s, r)) == Batched(Settled(c, s), r)
  {
    hide Toggle; hide Batched;
    BatchedLevel(s, r);
    ToggleBatched(c, s, true, r);
    ToggleBatched(c, s, false, r);
  }

  lemma BatchedLevel(s: State, r: SendResult)
    requires r.taken <= |s.queue|
    ensures var t := Batched(s, r);
            && t.closed == s.closed && t.writable == s.writable && t.bytes == s.bytes && t.queue == s.queue
            && t.w == s.w.(sends := r.rest)
  {
  }

  lemma AppendedBatched(s: State, d: Datagram, r: SendResult)
    requires r.taken <= |s.queue|
    ensures Appended(Batched(s, r), d) == Batched(Appended(s, d), r)
  {
    hide Owned;
    assert (s.queue + [d])[..r.taken] == s.queue[..r.taken];
  }

  lemma WorldBatched(s: State, w: World, r: SendResult)
    requires r.taken <= |s.queue| && w.sends == s.w.sends
    ensures Batched(s, r).(w := w.(sends := r.rest)) == Batched(s.(w := w), r)
  {
  }

  lemma {:induction false} RunCommutes(c: Config, s: State, r: SendResult)
    requires !s.closed && Tame(s.w.script) && r.taken <= |s.queue|
    ensures r.taken <= |RunHandler(c, s).queue| && RunHandler(c, Batched(s, r)) == Batched(RunHandler(c, s), r)
    decreases Work(s), |s.w.script|, 0
  {
    hide React; hide Tame; hide Batched; hide OnlyQueues;
    BatchedLevel(s, r);
    if s.w.script != [] {
      var w1 := s.w.(script := s.w.script[1..]);
      var s1 := s.(w := w1);
      ScriptRest(c, s.w.script);
      WorldBatched(s, w1, r);
      if s.w.script[0] != Return {
        var a := s.w.script[0];
        var s2 := React(c, s1, a);
        TameReact(c, false, s1, a);
        QueuesOn(c, false, s1, s2);
        ReactCommutes(c, s1, a, r);
        RunCommutes(c, s2, r);
      }
    }
  }

  lemma {:induction false} ReactCommutes(c: Config, s: State, action: Reaction, r: SendResult)
    requires !s.closed && Tame(s.w.script) && Tame([action]) && r.taken <= |s.queue|
    ensures r.taken <= |React(c, s, action).queue|
    ensures React(c, Batched(s, r), action) == Batched(React(c, s, action), r)
    decreases Work(s) + 1, |s.w.script|, 12
  {
    hide Write; hide Owns; hide Handle; hide Batched;
    assert [action][0] == action;
    BatchedLevel(s, r);
    match action
    case DoWrite(m) =>
      OwnsSends(s.w, r.rest, m);
      if Owns(s.w, m) { WriteCommutes(c, s, m, r); }
    case _ =>
      HandleSends(s.w, action, r.rest);
      WorldBatched(s, Handle(s.w, action), r);
  }

  lemma OwnsSends(w: World, sends: seq<SendOutcome>, m: Message)
    ensures Owns(w.(sends := sends), m) == Owns(w, m)
  {
  }

  lemma {:induction false} WriteCommutes(c: Config, s: State, m: Message, r: SendResult)
    requires !s.closed && Tame(s.w.script) && r.taken <= |s.queue|
    ensures r.taken <= |Write(c, s, m).s.queue| && Write(c, Batched(s, r), m).s == Batched(Write(c, s, m).s, r)
    decreases Work(s) + 1, |s.w.script|, 5
  {
    hide RequestedDatagram; hide Enqueue; hide MessageOwned; hide Batched; hide Tame; hide DropAll;
    BatchedLevel(s, r);
    match RequestedDatagram(c, m)
    case None =>
      DropAllSends(s.w, MessageOwned(m), r.rest);
      WorldBatched(s, DropAll(s.w, MessageOwned(m)), r);
    case Some(d) => EnqueueCommutes(c, s, d, r);
  }

  lemma {:induction false} EnqueueCommutes(c: Config, s: State, d: Datagram, r: SendResult)
    requires !s.closed && Tame(s.w.script) && r.taken <= |s.queue|
    ensures r.taken <= |Enqueue(c, s, d).queue| && Enqueue(c, Batched(s, r), d) == Batched(Enqueue(c, s, d), r)
    decreases Work(s) + 1, |s.w.script|, 4
  {
    hide UpdateWritability; hide Appended; hide Batched; hide Tame;
    AppendedBatched(s, d, r);
    AppendedFields(s, d);
    UpdateCommutes(c, Appended(s, d), r);
  }

  lemma {:induction false} UpdateCommutes(c: Config, s: State, r: SendResult)
    requires !s.closed && Tame(s.w.script) && r.taken <= |s.queue|
    ensures r.taken <= |UpdateWritability(c, s).queue|
    ensures UpdateWritability(c, Batched(s, r)) == Batched(UpdateWritability(c, s), r)
    decreases Work(s), |s.w.script|, 3
  {
    hide UpdateWritability; hide Settled; hide Tame; hide RunHandler; hide Batched;
    BatchedLevel(s, r);
    var t := Settled(c, s);
    UpdateIs(c, s);
    UpdateIs(c, Batched(s, r));
    SettledBatched(c, s, r);
    BatchedLevel(t, r);
    if t.writable != s.writable && c.hasChannel { RunCommutes(c, t, r); }
  }
}
