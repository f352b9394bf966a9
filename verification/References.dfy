/** Who holds which reference: nothing is released twice, lost, or handed out while it is in use. */
module References {
  import opened Wrappers
  import opened Addresses
  import opened World
  import opened EndpointState
  import opened EndpointSpec
  import opened Receiving
  import opened Frames
  import opened Preservation
  import opened Runs

  /** The references the queue owns. */
  function QueueRefs(q: seq<Datagram>): multiset<Resource>
    decreases |q|
  {
    if q == [] then multiset{} else multiset(Owned(q[0])) + QueueRefs(q[1..])
  }

  lemma {:induction false} QueueRefsAppend(q: seq<Datagram>, d: Datagram)
    ensures QueueRefs(q + [d]) == QueueRefs(q) + multiset(Owned(d))
    decreases |q|
  {
    hide Owned;
    if q == [] {
      assert ([] + [d])[1..] == [];
    } else {
      assert (q + [d])[1..] == q[1..] + [d];
      QueueRefsAppend(q[1..], d);
    }
  }

  lemma {:induction false} QueueRefsMember(q: seq<Datagram>, i: nat)
    requires i < |q|
    ensures multiset(Owned(q[i])) <= QueueRefs(q)
    decreases i
  {
    hide Owned;
    if i > 0 { QueueRefsMember(q[1..], i - 1); }
  }

  function WritePayloads(rs: seq<WriteRequest>): seq<nat> {
    seq(|rs|, i requires 0 <= i < |rs| => rs[i].payload.id)
  }

  /** The references the poller keeps for outstanding operations. */
  function Outstanding(w: World): multiset<Resource> {
    BufRefs(WritePayloads(w.pendingWrites)) + BufRefs(w.pendingReads)
  }

  /** Every reference count is the sum of the references somebody holds; `q` is the queue's share. */
  ghost predicate Balanced(w: World, q: multiset<Resource>) {
    w.refs == w.held + w.inHand + q + Outstanding(w)
  }

  /** An envelope is referenced once, or free once, or neither; names still to be given are unused. */
  ghost predicate Distinct(w: World) {
    && (forall id :: w.refs[EnvelopeRef(id)] + multiset(w.pool)[id] <= 1)
    && (forall id: nat :: id >= w.nextEnvelope ==> w.refs[EnvelopeRef(id)] + multiset(w.pool)[id] == 0)
    && (forall id: nat :: id >= w.nextBuf ==> w.refs[BufRef(id)] == 0)
  }

  ghost predicate Conserved(s: State) { Balanced(s.w, QueueRefs(s.queue)) && Distinct(s.w) }

  lemma {:induction false} EnvelopesCount(rs: seq<Resource>, id: nat)
    ensures multiset(Envelopes(rs))[id] == multiset(rs)[EnvelopeRef(id)]
    decreases |rs|
  {
    if rs != [] {
      EnvelopesCount(rs[1..], id);
      assert rs == [rs[0]] + rs[1..];
    }
  }

  /** Giving up references that are held returns their envelopes to the pool. */
  lemma ReleaseDistinct(w: World, rs: seq<Resource>, r: World)
    requires Distinct(w) && multiset(rs) <= w.refs
    requires r.refs == w.refs - multiset(rs) && r.pool == w.pool + Envelopes(rs)
    requires r.nextBuf == w.nextBuf && r.nextEnvelope == w.nextEnvelope
    ensures Distinct(r)
  {
    forall id ensures r.refs[EnvelopeRef(id)] + multiset(r.pool)[id] == w.refs[EnvelopeRef(id)] + multiset(w.pool)[id] {
      EnvelopesCount(rs, id);
    }
  }

  lemma PoolSplit(pool: seq<nat>)
    requires pool != []
    ensures multiset(pool) == multiset{pool[0]} + multiset(pool[1..])
  {
    assert pool == [pool[0]] + pool[1..];
  }

  /** Somebody gains a reference. */
  lemma GainBalanced(w: World, r: World, x: Resource, q: multiset<Resource>)
    requires Balanced(w, q) && r.pendingWrites == w.pendingWrites && r.pendingReads == w.pendingReads
    requires r.refs == w.refs + multiset{x} && r.held + r.inHand == w.held + w.inHand + multiset{x}
    ensures Balanced(r, q)
  {
    hide Outstanding;
    SameOutstanding(w, r);
    var o := Outstanding(w);
    assert r.refs == (w.held + w.inHand + multiset{x}) + q + o;
  }

  /** Somebody gives up references. */
  lemma LossBalanced(w: World, r: World, xs: multiset<Resource>, q: multiset<Resource>)
    requires Balanced(w, q) && r.pendingWrites == w.pendingWrites && r.pendingReads == w.pendingReads
    requires xs <= w.held + w.inHand
    requires r.refs == w.refs - xs && r.held + r.inHand == (w.held + w.inHand) - xs
    ensures Balanced(r, q)
  {
    hide Outstanding;
    SameOutstanding(w, r);
    var h, o := w.held + w.inHand, Outstanding(w);
    assert (h + q + o) - xs == (h - xs) + q + o;
  }

  /** A reference to a buffer leaves the pool and the envelopes alone. */
  lemma BufDistinct(w: World, r: World)
    requires Distinct(w) && r.pool == w.pool && r.nextEnvelope == w.nextEnvelope && r.nextBuf >= w.nextBuf
    requires forall id :: r.refs[EnvelopeRef(id)] == w.refs[EnvelopeRef(id)]
    requires forall id: nat :: id >= r.nextBuf ==> r.refs[BufRef(id)] <= w.refs[BufRef(id)]
    ensures Distinct(r)
  {
  }

  lemma EnvelopeConserved(w: World, q: multiset<Resource>)
    requires Balanced(w, q) && Distinct(w)
    ensures Balanced(AcquireEnvelope(w).0, q) && Distinct(AcquireEnvelope(w).0)
  {
    hide Balanced; hide Distinct;
    var (r, e) := AcquireEnvelope(w);
    assert r.held + r.inHand == w.held + w.inHand + multiset{EnvelopeRef(e)};
    GainBalanced(w, r, EnvelopeRef(e), q);
    EnvelopeDistinct(w);
  }

  lemma EnvelopeDistinct(w: World)
    requires Distinct(w)
    ensures Distinct(AcquireEnvelope(w).0)
  {
    if w.pool != [] { PoolSplit(w.pool); }
  }

  lemma SameOutstanding(w: World, r: World)
    requires r.pendingWrites == w.pendingWrites && r.pendingReads == w.pendingReads
    ensures Outstanding(r) == Outstanding(w)
  {
  }

  lemma DropConserved(w: World, rs: seq<Resource>, q: multiset<Resource>)
    requires Balanced(w, q) && Distinct(w) && multiset(rs) <= w.held
    ensures Balanced(DropAll(w, rs), q) && Distinct(DropAll(w, rs))
  {
    hide Outstanding; hide Envelopes;
    var r := DropAll(w, rs);
    SameOutstanding(w, r);
    ReleaseDistinct(w, rs, r);
  }

  lemma MoveConserved(h: Holding, w: World, q: multiset<Resource>)
    requires Movable(h, w) && Balanced(w, q) && Distinct(w)
    ensures Balanced(Move(h, w), q) && Distinct(Move(h, w))
  {
    match h
    case MakeEnvelope => hide Outstanding; EnvelopeConserved(w, q);
    case Lose(rs) => hide Outstanding; DropConserved(w, rs, q);
    case LoseOne(r) => LoseOneConserved(w, r, q);
    case Outside(v) => OutsideConserved(w, v, q);
    case _ => MoveBufConserved(h, w, q);
  }

  lemma LoseOneConserved(w: World, x: Resource, q: multiset<Resource>)
    requires Balanced(w, q) && Distinct(w) && x in w.held
    ensures Balanced(Drop(w, x), q) && Distinct(Drop(w, x))
  {
    hide Outstanding;
    SameOutstanding(w, Drop(w, x));
    assert Envelopes([x]) == if x.EnvelopeRef? then [x.id] else [];
    ReleaseDistinct(w, [x], Drop(w, x));
  }

  lemma OutsideConserved(w: World, v: World, q: multiset<Resource>)
    requires Balanced(w, q) && Distinct(w) && SameHoldings(v, w)
    ensures Balanced(v, q) && Distinct(v)
  {
    hide Outstanding;
    SameOutstanding(w, v);
    forall id ensures multiset(v.pool)[id] <= multiset(w.pool)[id] {}
  }

  lemma MoveBufConserved(h: Holding, w: World, q: multiset<Resource>)
    requires Movable(h, w) && Balanced(w, q) && Distinct(w)
    requires h.MakeBuf? || h.MakeHandlerBuf? || h.Retain? || h.DiscardOne? || h.DiscardMany? || h.Handing?
    ensures Balanced(Move(h, w), q) && Distinct(Move(h, w))
  {
    hide Balanced; hide Distinct; hide NewBuf; hide HandlerBuf; hide Obtain; hide HandOver;
    match h
    case MakeBuf => NewBufConserved(w, q);
    case MakeHandlerBuf => HandlerBufConserved(w, q);
    case Retain(x) => RetainConserved(w, x, q);
    case DiscardOne(id) => DiscardConserved(w, Discard(w, id), multiset{BufRef(id)}, q);
    case DiscardMany(ids) =>
      assert forall id :: multiset(Bufs(ids))[EnvelopeRef(id)] == 0;
      DiscardConserved(w, DiscardAll(w, ids), multiset(Bufs(ids)), q);
    case Handing(x) => HandingConserved(w, x, q);
  }

  lemma NewBufConserved(w: World, q: multiset<Resource>)
    requires Balanced(w, q) && Distinct(w)
    ensures Balanced(NewBuf(w), q) && Distinct(NewBuf(w))
  {
    hide Balanced; hide Distinct;
    var r := NewBuf(w);
    assert r.held + r.inHand == w.held + w.inHand + multiset{BufRef(w.nextBuf)};
    GainBalanced(w, r, BufRef(w.nextBuf), q);
    BufDistinct(w, r);
  }

  lemma HandlerBufConserved(w: World, q: multiset<Resource>)
    requires Balanced(w, q) && Distinct(w)
    ensures Balanced(HandlerBuf(w), q) && Distinct(HandlerBuf(w))
  {
    hide Balanced; hide Distinct;
    var r := HandlerBuf(w);
    assert r.held + r.inHand == w.held + w.inHand + multiset{BufRef(w.nextBuf)};
    GainBalanced(w, r, BufRef(w.nextBuf), q);
    BufDistinct(w, r);
  }

  lemma RetainConserved(w: World, x: Resource, q: multiset<Resource>)
    requires Balanced(w, q) && Distinct(w) && x.BufRef? && x in w.held
    ensures Balanced(Obtain(w, x), q) && Distinct(Obtain(w, x))
  {
    hide Balanced; hide Distinct;
    var r := Obtain(w, x);
    assert r.held + r.inHand == w.held + w.inHand + multiset{x};
    GainBalanced(w, r, x, q);
    RetainDistinct(w, x, q);
  }

  lemma RetainDistinct(w: World, x: Resource, q: multiset<Resource>)
    requires Balanced(w, q) && Distinct(w) && x.BufRef? && x in w.held
    ensures Distinct(Obtain(w, x))
  {
    hide Outstanding;
    assert x in w.refs;
  }

  lemma DiscardConserved(w: World, r: World, xs: multiset<Resource>, q: multiset<Resource>)
    requires Balanced(w, q) && Distinct(w) && xs <= w.inHand
    requires forall id :: xs[EnvelopeRef(id)] == 0
    requires r == w.(refs := w.refs - xs, inHand := w.inHand - xs)
    ensures Balanced(r, q) && Distinct(r)
  {
    hide Balanced; hide Distinct;
    assert w.held + (w.inHand - xs) == (w.held + w.inHand) - xs;
    LossBalanced(w, r, xs, q);
    BufDistinct(w, r);
  }

  lemma HandingConserved(w: World, x: Resource, q: multiset<Resource>)
    requires Balanced(w, q) && Distinct(w) && x in w.inHand
    ensures Balanced(HandOver(w, x), q) && Distinct(HandOver(w, x))
  {
    hide Outstanding;
    SameOutstanding(w, HandOver(w, x));
    assert (w.held + multiset{x}) + (w.inHand - multiset{x}) == w.held + w.inHand;
  }

  // ---- atoms ----

  /** A datagram moves from its writer to the queue. */
  lemma AppendedConserved(s: State, d: Datagram)
    requires Conserved(s) && multiset(Owned(d)) <= s.w.held
    ensures Conserved(Appended(s, d))
  {
    hide Outstanding; hide QueueRefs; hide Owned;
    var r := Appended(s, d);
    QueueRefsAppend(s.queue, d);
    SameOutstanding(s.w, r.w);
    var x := multiset(Owned(d));
    assert (s.w.held - x) + s.w.inHand + (QueueRefs(s.queue) + x) == s.w.held + s.w.inHand + QueueRefs(s.queue);
  }

  /** An entry that leaves the queue gives up its references, and its envelope goes back to the pool. */
  lemma PoppedConserved(s: State)
    requires Conserved(s) && s.queue != []
    ensures Conserved(Popped(s))
  {
    hide Outstanding; hide Owned; hide Distinct; hide Envelopes;
    var r := Popped(s);
    SameOutstanding(s.w, r.w);
    var x := multiset(Owned(s.queue[0]));
    assert x <= s.w.refs;
    ReleaseDistinct(s.w, Owned(s.queue[0]), r.w);
    var h, o, rest := s.w.held + s.w.inHand, Outstanding(s.w), QueueRefs(s.queue[1..]);
    assert (h + (x + rest) + o) - x == h + rest + o;
  }

  lemma WriteSubmittedConserved(s: State, to: SocketAddress)
    requires Conserved(s) && s.queue != []
    ensures Conserved(WriteSubmitted(s, to))
  {
    hide QueueRefs; hide Distinct; hide Outstanding;
    var d := s.queue[0];
    var r := WriteSubmitted(s, to);
    var x := multiset{BufRef(d.payload.id)};
    assert WritePayloads(r.w.pendingWrites) == WritePayloads(s.w.pendingWrites) + [d.payload.id];
    BufRefsAppend(WritePayloads(s.w.pendingWrites), d.payload.id);
    var h, q, o := s.w.held + s.w.inHand, QueueRefs(s.queue), Outstanding(s.w);
    assert Outstanding(r.w) == o + x by { OutstandingIs(s.w); OutstandingIs(r.w); }
    assert (h + q + o) + x == h + q + (o + x);
    QueueRefsMember(s.queue, 0);
    assert x <= multiset(Owned(d));
    KnownBuf(s.w, d.payload.id);
    BufDistinct(s.w, r.w);
  }

  lemma OutstandingIs(w: World)
    ensures Outstanding(w) == BufRefs(WritePayloads(w.pendingWrites)) + BufRefs(w.pendingReads)
  {
  }

  lemma KnownBuf(w: World, id: nat)
    requires Distinct(w) && BufRef(id) in w.refs
    ensures id < w.nextBuf
  {
  }

  lemma ReadSubmittedConserved(s: State, id: nat)
    requires Conserved(s) && BufRef(id) in s.w.inHand
    ensures Conserved(ReadSubmitted(s, id))
  {
    hide QueueRefs; hide Distinct; hide Outstanding;
    var r := ReadSubmitted(s, id);
    var x := multiset{BufRef(id)};
    BufRefsAppend(s.w.pendingReads, id);
    var h, q, o := s.w.held + s.w.inHand, QueueRefs(s.queue), Outstanding(s.w);
    assert Outstanding(r.w) == o + x by { OutstandingIs(s.w); OutstandingIs(r.w); }
    assert (h + q + o) + x == h + q + (o + x);
    KnownBuf(s.w, id);
    BufDistinct(s.w, r.w);
  }

  lemma WriteReturnedConserved(s: State)
    requires Conserved(s) && s.w.pendingWrites != []
    ensures Conserved(WriteReturned(s))
  {
    hide QueueRefs; hide Distinct; hide Outstanding;
    var r := WriteReturned(s);
    var ids := WritePayloads(s.w.pendingWrites);
    BufRefsSplit(ids, 1);
    assert ids[..1] == [ids[0]] && WritePayloads(r.w.pendingWrites) == ids[1..];
    NoBufsAppend(ids[0]);
    OutstandingIs(s.w); OutstandingIs(r.w);
    ReturnedConserved(s.w, r.w, BufRef(ids[0]), QueueRefs(s.queue));
  }

  lemma ReadReturnedConserved(s: State)
    requires Conserved(s) && s.w.pendingReads != []
    ensures Conserved(ReadReturned(s))
  {
    hide QueueRefs; hide Distinct; hide Outstanding;
    var r := ReadReturned(s);
    var ids := s.w.pendingReads;
    BufRefsSplit(ids, 1);
    assert ids[..1] == [ids[0]];
    NoBufsAppend(ids[0]);
    OutstandingIs(s.w); OutstandingIs(r.w);
    ReturnedConserved(s.w, r.w, BufRef(ids[0]), QueueRefs(s.queue));
  }

  lemma NoBufsAppend(id: nat)
    ensures BufRefs([id]) == multiset{BufRef(id)}
  {
    assert Bufs([id]) == [BufRef(id)];
  }

  /** The poller's reference becomes one in hand. */
  lemma ReturnedConserved(w: World, r: World, x: Resource, q: multiset<Resource>)
    requires Balanced(w, q) && Distinct(w)
    requires Outstanding(w) == multiset{x} + Outstanding(r)
    requires r.refs == w.refs && r.held == w.held && r.inHand == w.inHand + multiset{x}
    requires r.pool == w.pool && r.nextBuf == w.nextBuf && r.nextEnvelope == w.nextEnvelope
    ensures Balanced(r, q) && Distinct(r)
  {
    hide Outstanding;
    assert w.held + w.inHand + q + (multiset{x} + Outstanding(r)) == w.held + (w.inHand + multiset{x}) + q + Outstanding(r);
  }

  lemma SameWorldConserved(s: State, r: State)
    requires Conserved(s) && r.queue == s.queue
    requires r.w.refs == s.w.refs && r.w.held == s.w.held && r.w.inHand == s.w.inHand && r.w.pool == s.w.pool
    requires r.w.nextBuf == s.w.nextBuf && r.w.nextEnvelope == s.w.nextEnvelope
    requires r.w.pendingWrites == s.w.pendingWrites && r.w.pendingReads == s.w.pendingReads
    ensures Conserved(r)
  {
    hide Outstanding; hide QueueRefs;
    SameOutstanding(s.w, r.w);
  }

  lemma SettledConserved(c: Config, s: State)
    requires Conserved(s)
    ensures Conserved(Settled(c, s))
  {
    hide Conserved; hide Settled;
    SameWorldConserved(s, Settled(c, s));
  }

  lemma MarkedConserved(c: Config, s: State, m: Mark)
    requires Conserved(s)
    ensures Conserved(Marked(c, m, s))
  {
    hide Conserved; hide Marked;
    SameWorldConserved(s, Marked(c, m, s));
  }

  lemma BatchedConserved(s: State, r: SendResult)
    requires Conserved(s) && r.taken <= |s.queue|
    ensures Conserved(Batched(s, r))
  {
    hide Conserved;
    SameWorldConserved(s, Batched(s, r));
  }

  lemma InterestedConserved(s: State, on: bool)
    requires Conserved(s)
    ensures Conserved(Interested(s, on))
  {
    hide Conserved;
    SameWorldConserved(s, Interested(s, on));
  }

  lemma WriteCompletedConserved(s: State)
    requires Conserved(s) && s.w.pendingWrites != [] && s.queue != []
    ensures Conserved(WriteCompleted(s))
  {
    hide Popped; hide Conserved; hide WriteReturned; hide Discard;
    var id := s.w.pendingWrites[0].payload.id;
    var s1 := WriteReturned(s);
    WriteReturnedConserved(s);
    ReturnedHand(s);
    HeldConserved(s1, DiscardOne(id));
    ReturnedQueue(s);
    PoppedConserved(LoseRef(s1, id));
  }

  lemma ConservedStep(c: Config, a: Atom, s: State)
    requires Enabled(c, a, s) && Conserved(s)
    ensures Conserved(Apply(c, a, s))
  {
    hide Settled; hide Move; hide Movable; hide Markable; hide Marked; hide Conserved; hide Owned; hide Interested;
    hide Appended; hide Popped; hide WriteSubmitted; hide WriteReturned; hide ReadSubmitted; hide ReadReturned;
    hide Batched; hide WriteCompleted;
    match a
    case Append(d) => AppendedConserved(s, d); SettledConserved(c, Appended(s, d));
    case Pop => PoppedConserved(s); SettledConserved(c, Popped(s));
    case BeginClose => SameWorldConserved(s, s.(closed := true)); SettledConserved(c, s.(closed := true));
    case WriteOffered(to) => WriteSubmittedConserved(s, to);
    case ReadOffered(id) => ReadSubmittedConserved(s, id);
    case ReturnWrite => WriteReturnedConserved(s);
    case CompleteWrite => WriteCompletedConserved(s); SettledConserved(c, WriteCompleted(s));
    case ReturnRead => ReadReturnedConserved(s);
    case Hold(h) => HeldConserved(s, h);
    case Note(m) => MarkedConserved(c, s, m);
    case Batch(r) => BatchedConserved(s, r);
    case Interest(on) => InterestedConserved(s, on);
  }

  lemma HeldConserved(s: State, h: Holding)
    requires Conserved(s) && Movable(h, s.w)
    ensures Conserved(s.(w := Move(h, s.w)))
  {
    hide Balanced; hide Distinct; hide Move; hide Movable;
    MoveConserved(h, s.w, QueueRefs(s.queue));
  }

  /** What the endpoint may rely on whenever it gives a reference up. */
  ghost function Keeps(c: Config): State -> bool { (s: State) => Core(c, s) && Conserved(s) }

  lemma ConservedInvariant(c: Config)
    ensures Invariant(c, Keeps(c))
  {
    hide Core; hide Conserved; hide Apply; hide Enabled;
    forall a: Atom, s: State | Enabled(c, a, s) && Core(c, s) && Conserved(s)
      ensures Core(c, Apply(c, a, s)) && Conserved(Apply(c, a, s))
    {
      CoreStep(c, a, s);
      ConservedStep(c, a, s);
    }
  }

  lemma InitialConserved()
    ensures Conserved(Initial())
  {
    assert WritePayloads([]) == [];
    assert Bufs([]) == [];
  }

  /** After every run every count is the number of holders. */
  lemma RunConserved(c: Config, steps: seq<Step>)
    ensures Conserved(Run(c, Initial(), steps))
  {
    hide Run; hide Invariant; hide Conserved;
    ConservedInvariant(c);
    InitialConserved();
    assert Core(c, Initial());
    RunPreserves(c, Keeps(c), Initial(), steps);
  }
}
