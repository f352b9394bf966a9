/**
 * What reaches the socket: over whole runs the datagrams given to the socket (or submitted to a completion
 * poller) are the ones Write accepted, in order and each once. One thing can break this, and it is named.
 */
module Delivery {
  import opened Wrappers
  import opened Addresses
  import opened World
  import opened EndpointState
  import opened EndpointSpec
  import opened Preservation
  import opened Runs
  import opened Resting

  /** The positions 0, 1, 2, ... with none missing and none repeated. */
  ghost predicate InSequence(xs: seq<nat>) { forall i :: 0 <= i < |xs| ==> xs[i] == i }

  /** Strictly increasing: no datagram is sent twice or after a later one. */
  ghost predicate Increasing(xs: seq<nat>) { forall i, j :: 0 <= i < j < |xs| ==> xs[i] < xs[j] }

  /** Every send is of an accepted datagram. */
  ghost predicate Genuine(l: Log) {
    && |l.sent| == |l.sentAt|
    && forall i :: 0 <= i < |l.sentAt| ==> l.sentAt[i] < |l.accepted| && l.sent[i] == l.accepted[l.sentAt[i]]
  }

  ghost predicate Ordered(c: Config, s: State) {
    && s.log.accepted == s.log.gone + s.queue
    && Genuine(s.log)
    && (!s.closed ==> s.log.inFlight <= |s.queue|)
    && (!s.log.resent ==>
          && InSequence(s.log.sentAt)
          && (if s.closed then |s.log.sentAt| <= |s.log.accepted|
              else |s.log.sentAt| == |s.log.gone| + s.log.inFlight))
    && (s.log.resent ==> !Increasing(s.log.sentAt))
  }

  /** What has to happen before anything is sent again. */
  ghost predicate Blame(c: Config, s: State) {
    && (s.log.resent && c.mode != Completion ==> s.log.nested || s.log.partial)
    && (s.log.partial ==> !c.linux)
    && (c.mode == Completion ==> !s.log.nested && !s.log.partial)
    && (c.mode != Completion ==> s.w.pendingWrites == [])
  }

  lemma SettledOrdered(c: Config, s: State)
    requires Ordered(c, s)
    ensures Ordered(c, Settled(c, s))
  {
    hide InSequence; hide Increasing; hide Genuine;
    var r := Settled(c, s);
    SettledLog(c, s);
    GenuineFields(s.log, r.log);
  }

  lemma SettledLog(c: Config, s: State)
    ensures var l := Settled(c, s).log;
            && l.accepted == s.log.accepted && l.gone == s.log.gone && l.sent == s.log.sent && l.sentAt == s.log.sentAt
            && l.inFlight == s.log.inFlight && l.resent == s.log.resent && l.nested == s.log.nested
            && l.partial == s.log.partial
  {
  }

  lemma GenuineFields(l: Log, k: Log)
    requires Genuine(l) && k.accepted == l.accepted && k.sent == l.sent && k.sentAt == l.sentAt
    ensures Genuine(k)
  {
  }

  lemma AppendedOrdered(c: Config, s: State, d: Datagram)
    requires Ordered(c, s) && !s.closed
    ensures Ordered(c, Appended(s, d))
  {
    hide InSequence; hide Increasing; hide Owned;
    var r := Appended(s, d);
    assert r.log.accepted == s.log.gone + (s.queue + [d]);
    assert Genuine(r.log);
  }

  lemma PoppedOrdered(c: Config, s: State)
    requires Ordered(c, s) && s.queue != [] && (s.closed || s.log.inFlight > 0 || s.log.resent)
    ensures Ordered(c, Popped(s))
  {
    hide InSequence; hide Increasing; hide Genuine; hide ReleaseAll;
    var r := Popped(s);
    assert s.queue == [s.queue[0]] + s.queue[1..];
    GenuineFields(s.log, r.log);
  }

  /** Sending from the head of the queue continues the sequence, unless the head has been sent before. */
  lemma BatchedOrdered(c: Config, s: State, r: SendResult)
    requires Ordered(c, s) && !s.closed && r.taken <= |s.queue|
    ensures Ordered(c, Batched(s, r))
  {
    var t := Batched(s, r);
    var was := s.log.sentAt;
    BatchedGenuine(c, s, r);
    if r.taken > 0 && !s.log.resent && s.log.inFlight > 0 {
      var g := |s.log.gone|;
      assert was[g] == g;
      assert t.log.sentAt[|was|] == g && t.log.sentAt[g] == g;
      assert !Increasing(t.log.sentAt);
    }
    if s.log.resent {
      var i, j :| 0 <= i < j < |was| && was[i] >= was[j];
      assert t.log.sentAt[i] == was[i] && t.log.sentAt[j] == was[j];
      assert !Increasing(t.log.sentAt);
    }
  }

  lemma BatchedGenuine(c: Config, s: State, r: SendResult)
    requires Ordered(c, s) && r.taken <= |s.queue|
    ensures Genuine(Batched(s, r).log)
  {
    hide InSequence; hide Increasing;
  }

  /** So does submitting the head, unless it has been submitted before. */
  lemma WriteSubmittedOrdered(c: Config, s: State, to: SocketAddress)
    requires Ordered(c, s) && s.queue != [] && !s.closed && s.log.inFlight <= 1
    ensures Ordered(c, WriteSubmitted(s, to))
  {
    var t := WriteSubmitted(s, to);
    var was := s.log.sentAt;
    var g := |s.log.gone|;
    assert s.log.accepted[g] == s.queue[0];
    SubmittedGenuine(c, s, to);
    if !s.log.resent && s.log.inFlight > 0 {
      assert was[g] == g;
      assert t.log.sentAt[|was|] == g && t.log.sentAt[g] == g;
      assert !Increasing(t.log.sentAt);
    }
    if s.log.resent {
      var i, j :| 0 <= i < j < |was| && was[i] >= was[j];
      assert t.log.sentAt[i] == was[i] && t.log.sentAt[j] == was[j];
      assert !Increasing(t.log.sentAt);
    }
  }

  lemma SubmittedGenuine(c: Config, s: State, to: SocketAddress)
    requires Ordered(c, s) && s.queue != []
    ensures Genuine(WriteSubmitted(s, to).log)
  {
    hide InSequence; hide Increasing;
    assert s.log.accepted[|s.log.gone|] == s.queue[0];
  }

  lemma WriteCompletedOrdered(c: Config, s: State)
    requires Ordered(c, s) && s.w.pendingWrites != [] && s.queue != [] && !s.closed && s.log.inFlight == 1
    ensures Ordered(c, WriteCompleted(s))
  {
    hide Ordered; hide Popped;
    var t := LoseRef(WriteReturned(s), s.w.pendingWrites[0].payload.id);
    SameOrdered(c, s, t);
    PoppedOrdered(c, t);
  }

  lemma SameOrdered(c: Config, s: State, r: State)
    requires Ordered(c, s) && r.queue == s.queue && r.closed == s.closed
    requires r.log.accepted == s.log.accepted && r.log.gone == s.log.gone && r.log.sent == s.log.sent
    requires r.log.sentAt == s.log.sentAt && r.log.inFlight == s.log.inFlight && r.log.resent == s.log.resent
    ensures Ordered(c, r)
  {
    hide InSequence; hide Increasing;
  }

  lemma CloseOrdered(c: Config, s: State)
    requires Ordered(c, s) && !s.closed
    ensures Ordered(c, s.(closed := true))
  {
    hide InSequence; hide Increasing; hide Genuine;
  }

  lemma MarkedOrdered(c: Config, s: State, m: Mark)
    requires Ordered(c, s)
    ensures Ordered(c, Marked(c, m, s))
  {
    hide Ordered; hide Markable;
    SameOrdered(c, s, Marked(c, m, s));
  }

  lemma OrderedStep(c: Config, a: Atom, s: State)
    requires Enabled(c, a, s) && Ordered(c, s) && Core(c, s) && Blame(c, s)
    ensures Ordered(c, Apply(c, a, s))
  {
    hide Settled; hide Move; hide Movable; hide Markable; hide Marked; hide Ordered; hide Owned;
    hide Appended; hide Popped; hide WriteSubmitted; hide WriteReturned; hide Batched; hide WriteCompleted;
    match a
    case Append(d) => AppendedOrdered(c, s, d); SettledOrdered(c, Appended(s, d));
    case Pop => PoppedOrdered(c, s); SettledOrdered(c, Popped(s));
    case BeginClose => CloseOrdered(c, s); SettledOrdered(c, s.(closed := true));
    case WriteOffered(to) => OneAhead(c, s); WriteSubmittedOrdered(c, s, to);
    case ReturnWrite => ReturnedLog(s); SameOrdered(c, s, WriteReturned(s));
    case CompleteWrite => OneAhead(c, s); WriteCompletedOrdered(c, s); SettledOrdered(c, WriteCompleted(s));
    case Note(m) => MarkedOrdered(c, s, m);
    case Batch(r) => BatchedOrdered(c, s, r);
    case ReadOffered(id) => SameOrdered(c, s, ReadSubmitted(s, id));
    case ReturnRead => SameOrdered(c, s, ReadReturned(s));
    case Hold(h) => SameOrdered(c, s, s.(w := Move(h, s.w)));
    case Interest(on) => SameOrdered(c, s, Interested(s, on));
  }

  lemma ReturnedLog(s: State)
    requires s.w.pendingWrites != []
    ensures var r := WriteReturned(s); r.log == s.log && r.queue == s.queue && r.closed == s.closed
  {
  }

  lemma OneAhead(c: Config, s: State)
    requires Core(c, s) && c.mode == Completion && !s.closed
    ensures s.log.inFlight <= 1 && (s.writePending ==> s.log.inFlight == 1)
  {
  }

  lemma BlameStep(c: Config, a: Atom, s: State)
    requires Enabled(c, a, s) && Blame(c, s) && Core(c, s)
    ensures Blame(c, Apply(c, a, s))
  {
    hide Settled; hide Movable; hide Move; hide Marked; hide Owned; hide Popped; hide Appended; hide Core; hide WriteCompleted;
    hide Interested;
    match a
    case Append(d) => AppendedBlame(c, s, d); SettledLog(c, Appended(s, d));
    case Pop => PoppedBlame(c, s); SettledLog(c, Popped(s));
    case CompleteWrite => CompletedBlame(c, s); SettledLog(c, WriteCompleted(s));
    case BeginClose => SettledLog(c, s.(closed := true));
    case Note(m) => MarkedBlame(c, s, m);
    case Interest(on) => InterestedBlame(c, s, on);
    case _ =>
  }

  lemma AppendedBlame(c: Config, s: State, d: Datagram)
    requires Blame(c, s)
    ensures Blame(c, Appended(s, d))
  {
  }

  lemma PoppedBlame(c: Config, s: State)
    requires Blame(c, s) && s.queue != []
    ensures Blame(c, Popped(s))
  {
  }

  lemma CompletedBlame(c: Config, s: State)
    requires Blame(c, s) && s.queue != [] && s.w.pendingWrites != []
    ensures Blame(c, WriteCompleted(s))
  {
    hide Envelopes; hide Owned;
  }

  lemma MarkedBlame(c: Config, s: State, m: Mark)
    requires Blame(c, s) && Markable(c, m, s)
    ensures Blame(c, Marked(c, m, s))
  {
  }

  lemma InterestedBlame(c: Config, s: State, on: bool)
    requires Blame(c, s)
    ensures Blame(c, Interested(s, on))
  {
  }

  lemma OrderedInvariant(c: Config)
    ensures Invariant(c, s => Core(c, s) && Ordered(c, s) && Blame(c, s))
  {
    hide Core; hide Ordered; hide Blame; hide Apply; hide Enabled;
    forall a: Atom, s: State | Enabled(c, a, s) && Core(c, s) && Ordered(c, s) && Blame(c, s)
      ensures Core(c, Apply(c, a, s)) && Ordered(c, Apply(c, a, s)) && Blame(c, Apply(c, a, s))
    {
      CoreStep(c, a, s);
      OrderedStep(c, a, s);
      BlameStep(c, a, s);
    }
  }

  lemma RunOrdered(c: Config, steps: seq<Step>)
    ensures var s := Run(c, Initial(), steps); Core(c, s) && Ordered(c, s) && Blame(c, s)
  {
    hide Run; hide Invariant;
    OrderedInvariant(c);
    assert Core(c, Initial()) && Ordered(c, Initial()) && Blame(c, Initial());
    RunPreserves(c, s => Core(c, s) && Ordered(c, s) && Blame(c, s), Initial(), steps);
  }

  // ---- the promises ----

  lemma PrefixOf(l: Log, q: seq<Datagram>)
    requires Genuine(l) && InSequence(l.sentAt) && |l.sentAt| <= |l.accepted|
    ensures l.sent == l.accepted[..|l.sent|]
  {
  }

  /**
   * In every run nothing is sent twice or out of order exactly if no batch was sent while earlier sends were
   * still in the queue.
   */
  lemma ExactlyOnce(c: Config, steps: seq<Step>)
    ensures var s := Run(c, Initial(), steps); Increasing(s.log.sentAt) <==> !s.log.resent
  {
    hide Run; hide Blame; hide Core;
    RunOrdered(c, steps);
  }

  /**
   * Then what was sent is a prefix of what Write accepted, and on an open endpoint the queue holds the rest, with
   * the datagrams in flight at its head.
   */
  lemma SentPrefix(c: Config, steps: seq<Step>)
    requires !Run(c, Initial(), steps).log.resent
    ensures var s := Run(c, Initial(), steps);
            && |s.log.sent| <= |s.log.accepted| && s.log.sent == s.log.accepted[..|s.log.sent|]
            && (!s.closed ==> s.log.inFlight <= |s.queue| && s.log.accepted == s.log.sent + s.queue[s.log.inFlight..])
  {
    hide Run; hide Blame; hide Core;
    RunOrdered(c, steps);
    var s := Run(c, Initial(), steps);
    PrefixOf(s.log, s.queue);
    if !s.closed {
      assert s.log.accepted == s.log.gone + s.queue[..s.log.inFlight] + s.queue[s.log.inFlight..];
    }
  }

  /**
   * As long as no handler flushes from inside another flush's send loop and (off Linux) no send failed after
   * sending something, an open endpoint has between calls sent exactly what it accepted and no longer queues,
   * whatever else the socket did, errors included.
   */
  lemma ReadinessDelivery(c: Config, steps: seq<Step>)
    requires c.mode != Completion
    ensures var s := Run(c, Initial(), steps);
            !s.log.nested && (c.linux || !s.log.partial) ==>
              && |s.log.sent| <= |s.log.accepted| && s.log.sent == s.log.accepted[..|s.log.sent|]
              && (!s.closed ==> s.log.accepted == s.log.sent + s.queue)
  {
    hide Run;
    RunOrdered(c, steps);
    var s := Run(c, Initial(), steps);
    if !s.log.resent { SentPrefix(c, steps); }
    RunAtRest(c, steps);
    if !s.closed && !s.log.nested { assert s.queue[0..] == s.queue; }
  }
}
