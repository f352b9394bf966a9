/** Byte counts, queue entries and reference counts over whole runs. */
module Accounting {
  import opened Wrappers
  import opened Addresses
  import opened World
  import opened EndpointState
  import opened EndpointSpec
  import opened Receiving
  import opened Preservation
  import opened Runs

  // ---- bytes and entries ----

  /** The payload bytes of some datagrams. */
  function Total(q: seq<Datagram>): nat
    decreases |q|
  {
    if q == [] then 0 else Size(q[0]) + Total(q[1..])
  }

  lemma {:induction false} TotalAppend(q: seq<Datagram>, d: Datagram)
    ensures Total(q + [d]) == Total(q) + Size(d)
    decreases |q|
  {
    if q == [] {
      assert ([] + [d])[1..] == [];
    } else {
      assert (q + [d])[1..] == q[1..] + [d];
      TotalAppend(q[1..], d);
    }
  }

  /** `outboundBytes` counts the queue, and every entry ever made is in the queue or on the free list. */
  ghost predicate Counted(s: State) {
    && s.bytes == Total(s.queue)
    && |s.queue| <= s.log.peak
    && (!s.closed ==> |s.queue| + s.spare == s.log.peak == s.log.made)
    && (s.log.fdCloses > 0 ==> s.closed && s.queue == [] && s.spare == 0)
  }

  lemma SettledCounted(c: Config, s: State)
    requires Counted(s)
    ensures Counted(Settled(c, s))
  {
    hide Total;
  }

  lemma AppendedCounted(s: State, d: Datagram)
    requires Counted(s) && !s.closed
    ensures Counted(Appended(s, d))
  {
    hide Total;
    TotalAppend(s.queue, d);
  }

  /** Taking an entry off subtracts exactly its size: the count never has to be corrected to zero. */
  lemma PoppedCounted(s: State)
    requires Counted(s) && s.queue != []
    ensures Counted(Popped(s))
    ensures s.bytes - Size(s.queue[0]) >= 0 && Popped(s).bytes == s.bytes - Size(s.queue[0])
  {
  }

  lemma WriteCompletedCounted(s: State)
    requires Counted(s) && s.w.pendingWrites != [] && s.queue != []
    ensures Counted(WriteCompleted(s))
  {
    hide Popped; hide Total;
    PoppedCounted(LoseRef(WriteReturned(s), s.w.pendingWrites[0].payload.id));
  }

  lemma CountedStep(c: Config, a: Atom, s: State)
    requires Enabled(c, a, s) && Counted(s) && Core(c, s)
    ensures Counted(Apply(c, a, s))
  {
    hide Settled; hide Interested; hide Move; hide Movable; hide Markable; hide Core; hide Total;
    hide Appended; hide Popped; hide WriteCompleted;
    match a
    case Append(d) => AppendedCounted(s, d); SettledCounted(c, Appended(s, d));
    case Pop => PoppedCounted(s); SettledCounted(c, Popped(s));
    case CompleteWrite => WriteCompletedCounted(s); SettledCounted(c, WriteCompleted(s));
    case BeginClose => SettledCounted(c, s.(closed := true));
    case Note(m) => MarkedCounted(c, s, m);
    case Interest(on) => InterestedFields(s, on);
    case _ =>
  }

  lemma InterestedFields(s: State, on: bool)
    ensures Interested(s, on) == s.(writeInterest := on, w := Interested(s, on).w)
  {
  }

  lemma MarkedCounted(c: Config, s: State, m: Mark)
    requires Markable(c, m, s) && Counted(s)
    ensures Counted(Marked(c, m, s))
  {
    hide Total;
  }

  lemma CountedInvariant(c: Config)
    ensures Invariant(c, s => Core(c, s) && Counted(s))
  {
    hide Core; hide Counted; hide Apply; hide Enabled;
    forall a: Atom, s: State | Enabled(c, a, s) && Core(c, s) && Counted(s)
      ensures Core(c, Apply(c, a, s)) && Counted(Apply(c, a, s))
    {
      CoreStep(c, a, s);
      CountedStep(c, a, s);
    }
  }

  lemma RunCounted(c: Config, steps: seq<Step>)
    ensures Counted(Run(c, Initial(), steps))
  {
    hide Run; hide Invariant;
    CountedInvariant(c);
    assert Core(c, Initial()) && Counted(Initial());
    RunPreserves(c, s => Core(c, s) && Counted(s), Initial(), steps);
  }
}
