/** What reference counting promises the users of an endpoint, for every run. */
module Ownership {
  import opened Wrappers
  import opened Addresses
  import opened World
  import opened EndpointState
  import opened EndpointSpec
  import opened Receiving
  import opened Frames
  import opened Preservation
  import opened Runs
  import opened References
  import opened Announcements

  /** Close does not free what the poller still uses: every outstanding buffer keeps its reference. */
  lemma OutstandingAlive(c: Config, steps: seq<Step>)
    ensures var w := Run(c, Initial(), steps).w;
            && (forall i :: 0 <= i < |w.pendingWrites| ==> w.refs[BufRef(w.pendingWrites[i].payload.id)] > 0)
            && (forall i :: 0 <= i < |w.pendingReads| ==> w.refs[BufRef(w.pendingReads[i])] > 0)
  {
    hide Run;
    RunConserved(c, steps);
    var w := Run(c, Initial(), steps).w;
    forall i | 0 <= i < |w.pendingWrites| ensures BufRef(w.pendingWrites[i].payload.id) in Outstanding(w) {
      assert Bufs(WritePayloads(w.pendingWrites))[i] == BufRef(w.pendingWrites[i].payload.id);
    }
    forall i | 0 <= i < |w.pendingReads| ensures BufRef(w.pendingReads[i]) in Outstanding(w) {
      assert Bufs(w.pendingReads)[i] == BufRef(w.pendingReads[i]);
    }
  }

  lemma {:induction false} QueueRefsTwo(q: seq<Datagram>, i: nat, j: nat)
    requires i < j < |q|
    ensures multiset(Owned(q[i])) + multiset(Owned(q[j])) <= QueueRefs(q)
    decreases i
  {
    hide Owned;
    if i == 0 { QueueRefsMember(q[1..], j - 1); } else { QueueRefsTwo(q[1..], i - 1, j - 1); }
  }

  /**
   * The envelope of a queued datagram belongs to that queue entry alone: no handler and no other entry has it,
   * it is not in the pool, and the pool does not hand it out.
   */
  lemma QueuedEnvelope(c: Config, steps: seq<Step>, i: nat)
    requires i < |Run(c, Initial(), steps).queue| && Run(c, Initial(), steps).queue[i].envelope.Some?
    ensures var s := Run(c, Initial(), steps);
            var e := s.queue[i].envelope.value;
            && s.w.refs[EnvelopeRef(e)] == 1 && s.w.held[EnvelopeRef(e)] == 0 && s.w.inHand[EnvelopeRef(e)] == 0
            && e !in s.w.pool && AcquireEnvelope(s.w).1 != e
            && forall j :: 0 <= j < |s.queue| && s.queue[j].envelope == Some(e) ==> j == i
  {
    hide Run;
    RunConserved(c, steps);
    var s := Run(c, Initial(), steps);
    var e := s.queue[i].envelope.value;
    QueueRefsMember(s.queue, i);
    assert multiset(Owned(s.queue[i]))[EnvelopeRef(e)] == 1;
    assert QueueRefs(s.queue)[EnvelopeRef(e)] >= 1;
    assert multiset(s.w.pool)[e] == 0;
    forall j | 0 <= j < |s.queue| && s.queue[j].envelope == Some(e) ensures j == i {
      assert multiset(Owned(s.queue[j]))[EnvelopeRef(e)] == 1;
      if j < i { QueueRefsTwo(s.queue, j, i); } else if i < j { QueueRefsTwo(s.queue, i, j); }
    }
  }

  // ---- the address of a queued datagram ----

  /**
   * What the memory of an envelope reads. The address in a pooled datagram is a slice of its envelope, which is
   * written when it is handed out, so it reads the sender of the last datagram the envelope was handed out with.
   */
  function LastSender(events: seq<Event>, envelope: nat): Option<Address>
    decreases |events|
  {
    if events == [] then None else
      var last := events[|events| - 1];
      if last.ChannelRead? && last.envelope == Some(envelope) then Some(last.from)
      else LastSender(events[..|events| - 1], envelope)
  }

  lemma LastSenderAppend(events: seq<Event>, x: Event, envelope: nat)
    requires x.ChannelRead? ==> x.envelope != Some(envelope)
    ensures LastSender(events + [x], envelope) == LastSender(events, envelope)
  {
    assert (events + [x])[..|events|] == events;
  }

  /** The accepted datagrams are the ones taken off the queue and then the queue; each was queued at some time. */
  ghost predicate Dated(s: State) {
    && s.log.accepted == s.log.gone + s.queue && |s.log.queuedAfter| == |s.log.accepted|
    && forall p :: 0 <= p < |s.log.queuedAfter| ==> s.log.queuedAfter[p] <= |s.log.events|
  }

  /** The memory behind an entry of the queue reads what it read when the entry was queued. */
  ghost predicate Undisturbed(s: State, i: nat)
    requires Dated(s) && i < |s.queue|
  {
    var e := s.queue[i].envelope;
    e.Some? ==>
      LastSender(s.log.events, e.value) == LastSender(s.log.events[..s.log.queuedAfter[|s.log.gone| + i]], e.value)
  }

  ghost predicate AllUndisturbed(s: State) { Dated(s) && forall i :: 0 <= i < |s.queue| ==> Undisturbed(s, i) }

  /** Nothing is told but what the queue does not mind. */
  ghost predicate Harmless(q: seq<Datagram>, x: Event) {
    x.ChannelRead? && x.envelope.Some? ==> forall i :: 0 <= i < |q| ==> q[i].envelope != x.envelope
  }

  lemma ToldUndisturbed(s: State, r: State, x: Event)
    requires AllUndisturbed(s) && Harmless(s.queue, x) && r.queue == s.queue && r.log.events == s.log.events + [x]
    requires r.log.accepted == s.log.accepted && r.log.gone == s.log.gone && r.log.queuedAfter == s.log.queuedAfter
    ensures AllUndisturbed(r)
  {
    hide LastSender;
    forall i | 0 <= i < |r.queue| ensures Undisturbed(r, i) {
      assert Undisturbed(s, i);
      var e := s.queue[i].envelope;
      if e.Some? {
        LastSenderAppend(s.log.events, x, e.value);
        var n := s.log.queuedAfter[|s.log.gone| + i];
        assert r.log.events[..n] == s.log.events[..n];
      }
    }
  }

  lemma SameUndisturbed(s: State, r: State)
    requires AllUndisturbed(s) && r.queue == s.queue && r.log.events == s.log.events
    requires r.log.accepted == s.log.accepted && r.log.gone == s.log.gone && r.log.queuedAfter == s.log.queuedAfter
    ensures AllUndisturbed(r)
  {
    hide LastSender;
    forall i | 0 <= i < |r.queue| ensures Undisturbed(r, i) { assert Undisturbed(s, i); }
  }

  lemma SettledUndisturbed(c: Config, s: State)
    requires AllUndisturbed(s)
    ensures AllUndisturbed(Settled(c, s))
  {
    hide AllUndisturbed;
    var r := Settled(c, s);
    if r.log.events == s.log.events { SameUndisturbed(s, r); } else {
      ToldUndisturbed(s, r, WritabilityChanged(r.writable));
    }
  }

  lemma AppendedUndisturbed(s: State, d: Datagram)
    requires AllUndisturbed(s)
    ensures AllUndisturbed(Appended(s, d))
  {
    hide LastSender; hide Owned;
    var r := Appended(s, d);
    assert r.log.accepted == s.log.gone + (s.queue + [d]);
    forall i | 0 <= i < |r.queue| ensures Undisturbed(r, i) {
      if i < |s.queue| { assert Undisturbed(s, i); } else {
        assert s.log.events[..|s.log.events|] == s.log.events;
      }
    }
  }

  lemma PoppedUndisturbed(s: State)
    requires AllUndisturbed(s) && s.queue != []
    ensures AllUndisturbed(Popped(s))
  {
    hide LastSender; hide ReleaseAll;
    var r := Popped(s);
    assert s.queue == [s.queue[0]] + s.queue[1..];
    forall i | 0 <= i < |r.queue| ensures Undisturbed(r, i) { assert Undisturbed(s, i + 1); }
  }

  lemma OwnsEnvelope(d: Datagram, e: nat)
    ensures multiset(Owned(d))[EnvelopeRef(e)] == if d.envelope == Some(e) then 1 else 0
  {
  }

  /** An envelope that a handler holds is in no entry of the queue. */
  lemma HeldNotQueued(s: State, e: nat, i: nat)
    requires Conserved(s) && EnvelopeRef(e) in s.w.held && i < |s.queue|
    ensures s.queue[i].envelope != Some(e)
  {
    hide Outstanding; hide QueueRefs; hide Owned;
    QueueRefsMember(s.queue, i);
    OwnsEnvelope(s.queue[i], e);
    assert QueueRefs(s.queue)[EnvelopeRef(e)] + s.w.held[EnvelopeRef(e)] <= s.w.refs[EnvelopeRef(e)] <= 1;
  }

  lemma MarkedUndisturbed(c: Config, s: State, m: Mark)
    requires AllUndisturbed(s) && Conserved(s) && Markable(c, m, s)
    ensures AllUndisturbed(Marked(c, m, s))
  {
    hide AllUndisturbed; hide Conserved;
    var r := Marked(c, m, s);
    match m
    case Tell(x) => ToldUndisturbed(s, r, x);
    case Announcing(m, envelope) =>
      if envelope.Some? {
        forall i | 0 <= i < |s.queue| ensures s.queue[i].envelope != envelope { HeldNotQueued(s, envelope.value, i); }
      }
      ToldUndisturbed(s, r, ChannelRead(m.payload, FromSocketAddress(m.from), envelope));
    case MarkInactive =>
      if c.hasChannel { ToldUndisturbed(s, r, Inactive); } else { SameUndisturbed(s, r); }
    case _ => SameUndisturbed(s, r);
  }

  lemma ReturnedUndisturbed(s: State)
    requires AllUndisturbed(s) && s.w.pendingWrites != []
    ensures AllUndisturbed(WriteReturned(s))
    ensures s.queue != [] ==> AllUndisturbed(WriteCompleted(s))
  {
    hide AllUndisturbed; hide Popped;
    SameUndisturbed(s, WriteReturned(s));
    var t := LoseRef(WriteReturned(s), s.w.pendingWrites[0].payload.id);
    SameUndisturbed(s, t);
    if s.queue != [] { PoppedUndisturbed(t); }
  }

  lemma UndisturbedStep(c: Config, a: Atom, s: State)
    requires Enabled(c, a, s) && AllUndisturbed(s) && Conserved(s)
    ensures AllUndisturbed(Apply(c, a, s))
  {
    hide Settled; hide Move; hide Movable; hide Markable; hide Marked; hide Conserved; hide AllUndisturbed; hide Owned;
    hide Appended; hide Popped; hide WriteReturned; hide WriteCompleted;
    match a
    case Append(d) => AppendedUndisturbed(s, d); SettledUndisturbed(c, Appended(s, d));
    case Pop => PoppedUndisturbed(s); SettledUndisturbed(c, Popped(s));
    case BeginClose => SameUndisturbed(s, s.(closed := true)); SettledUndisturbed(c, s.(closed := true));
    case Note(m) => MarkedUndisturbed(c, s, m);
    case ReturnWrite => ReturnedUndisturbed(s);
    case CompleteWrite => ReturnedUndisturbed(s); SettledUndisturbed(c, WriteCompleted(s));
    case _ => SameUndisturbed(s, Apply(c, a, s));
  }

  ghost predicate Kept(c: Config, s: State) { Core(c, s) && Conserved(s) && AllUndisturbed(s) }

  /** It holds at every point of every operation, so also at every send and every submission. */
  lemma KeptInvariant(c: Config)
    ensures Invariant(c, s => Kept(c, s))
  {
    hide Core; hide Conserved; hide AllUndisturbed; hide Apply; hide Enabled;
    forall a: Atom, s: State | Enabled(c, a, s) && Kept(c, s) ensures Kept(c, Apply(c, a, s)) {
      CoreStep(c, a, s);
      ConservedStep(c, a, s);
      UndisturbedStep(c, a, s);
    }
  }

  lemma RunKept(c: Config, steps: seq<Step>)
    ensures Kept(c, Run(c, Initial(), steps))
  {
    hide Run; hide Invariant; hide Conserved;
    KeptInvariant(c);
    InitialConserved();
    assert Kept(c, Initial());
    RunPreserves(c, s => Kept(c, s), Initial(), steps);
  }

  /** Since a datagram was queued, its envelope has not been handed out again. */
  lemma QueuedAddressKept(c: Config, steps: seq<Step>, i: nat)
    requires i < |Run(c, Initial(), steps).queue|
    ensures var s := Run(c, Initial(), steps);
            var p := |s.log.gone| + i;
            && p < |s.log.accepted| == |s.log.queuedAfter| && s.log.accepted[p] == s.queue[i]
            && s.log.queuedAfter[p] <= |s.log.events|
            && var e := s.queue[i].envelope;
               e.Some? ==> LastSender(s.log.events, e.value) == LastSender(s.log.events[..s.log.queuedAfter[p]], e.value)
  {
    hide Run; hide LastSender; hide Core; hide Conserved;
    RunKept(c, steps);
    var s := Run(c, Initial(), steps);
    assert Undisturbed(s, i);
  }

  /** Entry `i` was queued in the envelope its datagram came in, with its sender's address as it lay there. */
  ghost predicate QueuedAsReceived(s: State, i: nat, source: SocketAddress) {
    && i < |s.queue| && s.queue[i].envelope.Some? && Names(s.queue[i].addr, source)
    && var p := |s.log.gone| + i;
       && p < |s.log.queuedAfter| && s.log.queuedAfter[p] <= |s.log.events|
       && LastSender(s.log.events[..s.log.queuedAfter[p]], s.queue[i].envelope.value) == Some(s.queue[i].addr)
  }

  /**
   * An echo: a datagram is queued as it was received. However long it waits and whatever arrives meanwhile, the
   * memory its address lies in still reads that address, which leads back to the source, exactly if that is canonical.
   */
  lemma EchoGoesBack(c: Config, steps: seq<Step>, i: nat, source: SocketAddress)
    requires QueuedAsReceived(Run(c, Initial(), steps), i, source)
    requires source.family != Unspecified && 0 <= source.port <= MAX_PORT && source.zoneId < UINT32_BOUND
    ensures var s := Run(c, Initial(), steps);
            && LastSender(s.log.events, s.queue[i].envelope.value) == Some(s.queue[i].addr)
            && (ToSocketAddress(c.ifaces, s.queue[i].addr) == Success(source) <==> Canonical(source))
  {
    hide Run; hide LastSender; hide ToSocketAddress; hide Names; hide Canonical;
    QueuedAddressKept(c, steps, i);
    NamedLeadsBack(c.ifaces, Run(c, Initial(), steps).queue[i].addr, source);
  }
}
