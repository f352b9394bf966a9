/** The writable flag over whole runs: hysteresis, alternating notifications, and what a flip costs. */
module Backpressure {
  import opened Wrappers
  import opened Addresses
  import opened World
  import opened EndpointState
  import opened EndpointSpec
  import opened Preservation
  import opened Runs
  import opened Accounting

  /**
   * The flag as a function of the history of levels: it is down exactly if the last level outside the open
   * interval between the watermarks was at or above the high one.
   */
  function Hysteresis(c: Config, levels: seq<int>): bool
    decreases |levels|
  {
    if levels == [] then true
    else
      var last := levels[|levels| - 1];
      if last >= c.high then false
      else if last <= c.low then true
      else Hysteresis(c, levels[..|levels| - 1])
  }

  /** Notifications carry false, true, false, ... */
  ghost predicate Alternating(flips: seq<bool>) { forall i :: 0 <= i < |flips| ==> flips[i] == (i % 2 == 1) }

  /** How often the flag went down. */
  function Downs(flips: seq<bool>): nat { (|flips| + 1) / 2 }

  /** What has to have been queued for the flag to stand as it does after `n` falls. */
  function Cost(c: Config, n: int): int { n * (c.high - c.low) }

  lemma CostNext(c: Config, n: int)
    ensures Cost(c, n + 1) == Cost(c, n) + (c.high - c.low)
  {
  }

  /** The bytes queued so far cover every fall of the flag, and the level on top. */
  ghost predicate Paid(c: Config, s: State) {
    var n := Downs(s.log.flips);
    if s.writable then s.log.entered >= Cost(c, n) + s.bytes && (n > 0 ==> s.log.entered >= Cost(c, n) + c.low)
    else s.log.entered >= Cost(c, n - 1) + c.high
  }

  ghost predicate Throttled(c: Config, s: State) {
    && Alternating(s.log.flips) && s.writable == (|s.log.flips| % 2 == 0)
    && (!s.closed ==>
          && (s.writable ==> s.bytes < c.high)
          && (!s.writable ==> s.bytes > c.low)
          && s.writable == Hysteresis(c, s.log.levels)
          && Paid(c, s))
  }

  /** Between a change of level and the flag's answer to it. */
  ghost predicate Pending(c: Config, s: State, before: bool) {
    && Alternating(s.log.flips) && s.writable == (|s.log.flips| % 2 == 0)
    && s.log.levels != [] && s.log.levels[|s.log.levels| - 1] == s.bytes
    && before == Hysteresis(c, s.log.levels[..|s.log.levels| - 1]) && s.writable == before
    && Paid(c, s)
  }

  lemma SettledThrottled(c: Config, s: State, before: bool)
    requires WellFormed(c) && !s.closed && Pending(c, s, before)
    ensures Throttled(c, Settled(c, s))
  {
    hide Throttled; hide Pending; hide Toggle;
    if s.writable && s.bytes >= c.high { FallThrottled(c, s, before); }
    else if !s.writable && s.bytes <= c.low { RiseThrottled(c, s, before); }
    else { StayThrottled(c, s, before); }
  }

  lemma FallThrottled(c: Config, s: State, before: bool)
    requires WellFormed(c) && !s.closed && Pending(c, s, before) && s.writable && s.bytes >= c.high
    ensures Throttled(c, Toggle(c, s, false))
  {
    hide Cost;
    assert Downs(s.log.flips + [false]) == Downs(s.log.flips) + 1;
  }

  lemma RiseThrottled(c: Config, s: State, before: bool)
    requires WellFormed(c) && !s.closed && Pending(c, s, before) && !s.writable && s.bytes <= c.low
    ensures Throttled(c, Toggle(c, s, true))
  {
    hide Cost;
    assert Downs(s.log.flips + [true]) == Downs(s.log.flips);
    CostNext(c, Downs(s.log.flips) - 1);
  }

  lemma StayThrottled(c: Config, s: State, before: bool)
    requires WellFormed(c) && !s.closed && Pending(c, s, before)
    requires s.writable ==> s.bytes < c.high
    requires !s.writable ==> s.bytes > c.low
    ensures Throttled(c, s)
  {
    hide Cost; hide Alternating;
  }

  lemma AppendedPending(c: Config, s: State, d: Datagram)
    requires Throttled(c, s) && !s.closed
    ensures Pending(c, Appended(s, d), s.writable)
  {
    hide Cost; hide Hysteresis; hide Owned;
    var r := Appended(s, d);
    assert r.log.levels[..|r.log.levels| - 1] == s.log.levels;
  }

  lemma PoppedPending(c: Config, s: State)
    requires Throttled(c, s) && !s.closed && s.queue != [] && Counted(s)
    ensures Pending(c, Popped(s), s.writable)
  {
    hide Cost; hide Hysteresis; hide ReleaseAll; hide Alternating;
    var r := Popped(s);
    assert r.log.levels[..|r.log.levels| - 1] == s.log.levels;
    PoppedCounted(s);
  }

  lemma SameThrottled(c: Config, s: State, r: State)
    requires Throttled(c, s) && r.closed == s.closed && r.writable == s.writable && r.bytes == s.bytes
    requires r.log.flips == s.log.flips && r.log.levels == s.log.levels && r.log.entered == s.log.entered
    ensures Throttled(c, r)
  {
    hide Cost; hide Hysteresis; hide Alternating;
  }

  lemma ClosedThrottled(c: Config, s: State)
    requires Alternating(s.log.flips) && s.writable == (|s.log.flips| % 2 == 0) && s.closed
    ensures Throttled(c, Settled(c, s))
  {
  }

  lemma PoppedClosed(c: Config, s: State)
    requires Throttled(c, s) && s.closed && s.queue != []
    ensures Throttled(c, Settled(c, Popped(s)))
  {
    hide Cost; hide Hysteresis; hide ReleaseAll; hide Alternating; hide Settled;
    ClosedThrottled(c, Popped(s));
  }

  lemma WriteCompletedPending(c: Config, s: State)
    requires Throttled(c, s) && !s.closed && s.queue != [] && s.w.pendingWrites != [] && Counted(s)
    ensures Pending(c, WriteCompleted(s), s.writable)
  {
    hide Throttled; hide Pending; hide Popped; hide Counted;
    var t := LoseRef(WriteReturned(s), s.w.pendingWrites[0].payload.id);
    SameThrottled(c, s, t);
    SameCounted(s, t);
    PoppedPending(c, t);
  }

  lemma SameCounted(s: State, t: State)
    requires Counted(s) && t.queue == s.queue && t.spare == s.spare && t.bytes == s.bytes && t.closed == s.closed
    requires t.log == s.log
    ensures Counted(t)
  {
    hide Total;
  }

  lemma MarkedThrottled(c: Config, s: State, m: Mark)
    requires Throttled(c, s)
    ensures Throttled(c, Marked(c, m, s))
  {
    hide Throttled;
    SameThrottled(c, s, Marked(c, m, s));
  }

  lemma AppendedOpen(s: State, d: Datagram)
    ensures Appended(s, d).closed == s.closed
  {
  }

  lemma PoppedOpen(s: State)
    requires s.queue != []
    ensures Popped(s).closed == s.closed
  {
  }

  lemma CompletedOpen(s: State)
    requires s.queue != [] && s.w.pendingWrites != []
    ensures WriteCompleted(s).closed == s.closed
  {
  }

  lemma ThrottledFlips(c: Config, s: State)
    requires Throttled(c, s)
    ensures Alternating(s.log.flips) && s.writable == (|s.log.flips| % 2 == 0)
  {
  }

  /** The atoms that touch neither the level nor the flag. */
  lemma QuietAtoms(c: Config, a: Atom, s: State)
    requires Enabled(c, a, s) && Throttled(c, s)
    requires a.WriteOffered? || a.ReadOffered? || a.ReturnWrite? || a.ReturnRead? || a.Batch? || a.Interest?
    ensures Throttled(c, Apply(c, a, s))
  {
    hide Throttled; hide SkipAnswer; hide NextAnswer;
    SameThrottled(c, s, Apply(c, a, s));
  }

  lemma ThrottledStep(c: Config, a: Atom, s: State)
    requires WellFormed(c) && Enabled(c, a, s) && Throttled(c, s) && Counted(s)
    ensures Throttled(c, Apply(c, a, s))
  {
    hide Settled; hide Move; hide Movable; hide Markable; hide Marked; hide Throttled; hide Owned; hide Counted;
    hide Appended; hide Popped; hide WriteSubmitted; hide WriteReturned; hide WriteCompleted; hide Pending; hide Batched;
    hide Interested; hide ReadSubmitted; hide ReadReturned;
    match a
    case Append(d) => AppendedPending(c, s, d); AppendedOpen(s, d); SettledThrottled(c, Appended(s, d), s.writable);
    case Pop =>
      if s.closed { PoppedClosed(c, s); } else { PoppedPending(c, s); PoppedOpen(s); SettledThrottled(c, Popped(s), s.writable); }
    case CompleteWrite => WriteCompletedPending(c, s); CompletedOpen(s); SettledThrottled(c, WriteCompleted(s), s.writable);
    case BeginClose => ThrottledFlips(c, s); ClosedThrottled(c, s.(closed := true));
    case WriteOffered(to) => QuietAtoms(c, a, s);
    case ReadOffered(id) => QuietAtoms(c, a, s);
    case ReturnWrite => QuietAtoms(c, a, s);
    case ReturnRead => QuietAtoms(c, a, s);
    case Batch(r) => QuietAtoms(c, a, s);
    case Interest(on) => QuietAtoms(c, a, s);
    case Note(m) => MarkedThrottled(c, s, m);
    case Hold(h) => SameThrottled(c, s, s.(w := Move(h, s.w)));
  }

  lemma ThrottledInvariant(c: Config)
    requires WellFormed(c)
    ensures Invariant(c, s => Core(c, s) && Counted(s) && Throttled(c, s))
  {
    hide Core; hide Counted; hide Throttled; hide Apply; hide Enabled; hide WellFormed;
    forall a: Atom, s: State | Enabled(c, a, s) && Core(c, s) && Counted(s) && Throttled(c, s)
      ensures Core(c, Apply(c, a, s)) && Counted(Apply(c, a, s)) && Throttled(c, Apply(c, a, s))
    {
      CoreStep(c, a, s);
      CountedStep(c, a, s);
      ThrottledStep(c, a, s);
    }
  }

  lemma RunThrottled(c: Config, steps: seq<Step>)
    requires WellFormed(c)
    ensures Throttled(c, Run(c, Initial(), steps))
  {
    hide Run; hide Invariant;
    ThrottledInvariant(c);
    assert Core(c, Initial()) && Counted(Initial()) && Throttled(c, Initial());
    RunPreserves(c, s => Core(c, s) && Counted(s) && Throttled(c, s), Initial(), steps);
  }

  /** The flag of an open endpoint is the hysteresis of its history, and stays inside its bounds. */
  lemma FlagIsHysteresis(c: Config, steps: seq<Step>)
    requires WellFormed(c)
    ensures var s := Run(c, Initial(), steps);
            !s.closed ==>
              && s.writable == Hysteresis(c, s.log.levels)
              && (s.writable ==> s.bytes < c.high)
              && (!s.writable ==> s.bytes > c.low)
  {
    hide Run; hide Hysteresis;
    RunThrottled(c, steps);
  }

  // ---- what the pipeline is told ----

  /** The values of the writability notifications among some events, in order. */
  function Heard(events: seq<Event>): seq<bool>
    decreases |events|
  {
    if events == [] then [] else
      var last := events[|events| - 1];
      Heard(events[..|events| - 1]) + (if last.WritabilityChanged? then [last.writable] else [])
  }

  lemma HeardAppend(events: seq<Event>, e: Event)
    ensures Heard(events + [e]) == Heard(events) + (if e.WritabilityChanged? then [e.writable] else [])
  {
    assert (events + [e])[..|events|] == events;
  }

  /** With a channel, every change of the flag is told, and nothing else is told as one. */
  ghost predicate ToldChanges(c: Config, s: State) { Heard(s.log.events) == if c.hasChannel then s.log.flips else [] }

  lemma SameChanges(c: Config, s: State, r: State)
    requires ToldChanges(c, s) && r.log.events == s.log.events && r.log.flips == s.log.flips
    ensures ToldChanges(c, r)
  {
    hide Heard;
  }

  lemma SettledChanges(c: Config, s: State)
    requires ToldChanges(c, s)
    ensures ToldChanges(c, Settled(c, s))
  {
    hide Heard;
    HeardAppend(s.log.events, WritabilityChanged(true));
    HeardAppend(s.log.events, WritabilityChanged(false));
  }

  lemma EmitChanges(c: Config, s: State, e: Event)
    requires ToldChanges(c, s) && !e.WritabilityChanged?
    ensures ToldChanges(c, Emit(s, e))
  {
    hide Heard;
    HeardAppend(s.log.events, e);
  }

  lemma MarkedChanges(c: Config, s: State, m: Mark)
    requires ToldChanges(c, s) && Markable(c, m, s)
    ensures ToldChanges(c, Marked(c, m, s))
  {
    hide ToldChanges; hide Emit;
    match m
    case Tell(e) => EmitChanges(c, s, e);
    case Announcing(m, envelope) =>
      SameChanges(c, s, Dispatched(s, m));
      EmitChanges(c, Dispatched(s, m), ChannelRead(m.payload, FromSocketAddress(m.from), envelope));
    case MarkInactive =>
      var t := s.(inactiveFired := true);
      SameChanges(c, s, t);
      EmitChanges(c, t, Inactive);
    case _ => SameChanges(c, s, Marked(c, m, s));
  }

  lemma CompletedEvents(s: State)
    requires s.w.pendingWrites != [] && s.queue != []
    ensures WriteCompleted(s).log.events == s.log.events && WriteCompleted(s).log.flips == s.log.flips
  {
    hide ReleaseAll;
  }

  lemma ChangesStep(c: Config, a: Atom, s: State)
    requires Enabled(c, a, s) && ToldChanges(c, s)
    ensures ToldChanges(c, Apply(c, a, s))
  {
    hide ToldChanges; hide Settled; hide Marked; hide Markable; hide Owned; hide ReleaseAll; hide Move; hide Movable;
    hide WriteCompleted; hide ToSocketAddress;
    match a
    case Append(d) => SameChanges(c, s, Appended(s, d)); SettledChanges(c, Appended(s, d));
    case Pop => SameChanges(c, s, Popped(s)); SettledChanges(c, Popped(s));
    case CompleteWrite =>
      CompletedEvents(s);
      SameChanges(c, s, WriteCompleted(s));
      SettledChanges(c, WriteCompleted(s));
    case BeginClose => SameChanges(c, s, s.(closed := true)); SettledChanges(c, s.(closed := true));
    case Note(m) => MarkedChanges(c, s, m);
    case Interest(on) => SameChanges(c, s, Interested(s, on));
    case _ => SameChanges(c, s, Apply(c, a, s));
  }

  lemma ChangesInvariant(c: Config)
    ensures Invariant(c, s => Core(c, s) && ToldChanges(c, s))
  {
    hide Core; hide ToldChanges; hide Apply; hide Enabled;
    forall a: Atom, s: State | Enabled(c, a, s) && Core(c, s) && ToldChanges(c, s)
      ensures Core(c, Apply(c, a, s)) && ToldChanges(c, Apply(c, a, s))
    {
      CoreStep(c, a, s);
      ChangesStep(c, a, s);
    }
  }

  /**
   * Over every run the flag falls and rises in turns, and the pipeline, if there is one, is told exactly these
   * changes in their order; the flag is what it was told last.
   */
  lemma NotificationsAlternate(c: Config, steps: seq<Step>)
    requires WellFormed(c)
    ensures var s := Run(c, Initial(), steps);
            var heard := Heard(s.log.events);
            && Alternating(s.log.flips)
            && s.writable == (if s.log.flips == [] then true else s.log.flips[|s.log.flips| - 1])
            && heard == (if c.hasChannel then s.log.flips else [])
  {
    hide Run; hide Invariant; hide Heard;
    RunThrottled(c, steps);
    ChangesInvariant(c);
    assert Core(c, Initial());
    assert ToldChanges(c, Initial()) by { NothingHeard(); }
    RunPreserves(c, s => Core(c, s) && ToldChanges(c, s), Initial(), steps);
  }

  lemma NothingHeard()
    ensures Heard([]) == []
  {
  }

  /** The n-th fall of an open endpoint's flag needs `high` and then `high - low` more bytes for every later one. */
  lemma FlipBound(c: Config, steps: seq<Step>)
    requires WellFormed(c)
    ensures var s := Run(c, Initial(), steps);
            var n := Downs(s.log.flips);
            !s.closed && n > 0 ==> s.log.entered >= c.high + (n - 1) * (c.high - c.low)
  {
    hide Run;
    RunThrottled(c, steps);
    RunCounted(c, steps);
    var s := Run(c, Initial(), steps);
    if !s.closed && Downs(s.log.flips) > 0 { FallBound(c, s); }
  }

  lemma FallBound(c: Config, s: State)
    requires WellFormed(c) && Throttled(c, s) && Counted(s) && !s.closed && Downs(s.log.flips) > 0
    ensures s.log.entered >= c.high + (Downs(s.log.flips) - 1) * (c.high - c.low)
  {
    hide Hysteresis; hide Alternating;
    CostNext(c, Downs(s.log.flips) - 1);
  }
}
