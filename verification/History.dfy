/** What has happened stays in the log: every operation, handlers and all, only adds to what was there before it. */
module History {
  import opened Wrappers
  import opened Addresses
  import opened World
  import opened EndpointState
  import opened EndpointSpec
  import opened Frames
  import opened Preservation
  import opened Runs

  /** The lists of the log start with those of `l`. */
  ghost predicate Past(l: Log, s: State) {
    && l.events <= s.log.events && l.dispatched <= s.log.dispatched
    && l.accepted <= s.log.accepted && l.queuedAfter <= s.log.queuedAfter && l.gone <= s.log.gone
    && l.sent <= s.log.sent && l.sentAt <= s.log.sentAt
  }

  lemma PastTrans(l: Log, s: State, r: State)
    requires Past(l, s) && Past(s.log, r)
    ensures Past(l, r)
  {
  }

  lemma SettledGrows(c: Config, s: State)
    ensures Past(s.log, Settled(c, s))
  {
  }

  lemma AppendedGrows(s: State, d: Datagram)
    ensures Past(s.log, Appended(s, d))
  {
  }

  lemma PoppedGrows(s: State)
    requires s.queue != []
    ensures Past(s.log, Popped(s))
  {
  }

  lemma BatchedGrows(s: State, r: SendResult)
    requires r.taken <= |s.queue|
    ensures Past(s.log, Batched(s, r))
  {
  }

  lemma CompletedGrows(s: State)
    requires s.w.pendingWrites != [] && s.queue != []
    ensures Past(s.log, WriteCompleted(s))
  {
    hide ReleaseAll;
  }

  lemma SubmittedGrows(s: State, to: SocketAddress)
    requires s.queue != []
    ensures Past(s.log, WriteSubmitted(s, to))
  {
  }

  lemma MarkedGrows(c: Config, s: State, m: Mark)
    ensures Past(s.log, Marked(c, m, s))
  {
    hide Announced; hide Emit; hide Past; hide MarkedInactive;
    match m
    case Announcing(d, envelope) => AnnouncedGrows(s, d, envelope);
    case Tell(x) => EmittedGrows(s, x);
    case MarkInactive => InactiveGrows(c, s);
    case _ => MarksGrow(c, s, m);
  }

  lemma MarksGrow(c: Config, s: State, m: Mark)
    requires !m.Announcing? && !m.Tell? && !m.MarkInactive?
    ensures Past(s.log, Marked(c, m, s))
  {
    hide Announced; hide Emit; hide MarkedInactive;
  }

  lemma AnnouncedGrows(s: State, m: Inbound, envelope: Option<nat>)
    ensures Past(s.log, Announced(s, m, envelope))
  {
    hide FromSocketAddress;
  }

  lemma EmittedGrows(s: State, x: Event)
    ensures Past(s.log, Emit(s, x))
  {
  }

  lemma InactiveGrows(c: Config, s: State)
    ensures Past(s.log, MarkedInactive(c, s))
  {
  }

  lemma AtomGrows(c: Config, a: Atom, s: State)
    requires Enabled(c, a, s)
    ensures Past(s.log, Apply(c, a, s))
  {
    hide Settled; hide Move; hide Movable; hide Markable; hide Marked; hide Owned; hide Past; hide FirstSend;
    hide Appended; hide Popped; hide Batched; hide WriteCompleted; hide WriteSubmitted;
    match a
    case Append(d) =>
      AppendedGrows(s, d);
      SettledGrows(c, Appended(s, d));
      PastTrans(s.log, Appended(s, d), Apply(c, a, s));
    case Pop =>
      PoppedGrows(s);
      SettledGrows(c, Popped(s));
      PastTrans(s.log, Popped(s), Apply(c, a, s));
    case CompleteWrite =>
      CompletedGrows(s);
      SettledGrows(c, WriteCompleted(s));
      PastTrans(s.log, WriteCompleted(s), Apply(c, a, s));
    case BeginClose => SettledGrows(c, s.(closed := true));
    case Batch(r) => BatchedGrows(s, r);
    case WriteOffered(to) => SubmittedGrows(s, to);
    case Note(m) => MarkedGrows(c, s, m);
    case _ => SamePast(s, Apply(c, a, s));
  }

  lemma SamePast(s: State, r: State)
    requires r.log == s.log
    ensures Past(s.log, r)
  {
  }

  /** The property of having this past. */
  ghost function Remembering(c: Config, l: Log): State -> bool { (s: State) => Core(c, s) && Past(l, s) }

  lemma RememberingInvariant(c: Config, l: Log)
    ensures Invariant(c, Remembering(c, l))
  {
    hide Core; hide Past; hide Apply; hide Enabled;
    forall a: Atom, s: State | Enabled(c, a, s) && Core(c, s) && Past(l, s)
      ensures Core(c, Apply(c, a, s)) && Past(l, Apply(c, a, s))
    {
      CoreStep(c, a, s);
      AtomGrows(c, a, s);
      PastTrans(l, s, Apply(c, a, s));
    }
  }

  lemma RunHandlerGrows(c: Config, s: State)
    requires Core(c, s)
    ensures var r := RunHandler(c, s); Core(c, r) && Past(s.log, r)
  {
    hide Core; hide RunHandler; hide Invariant;
    RememberingInvariant(c, s.log);
    SamePast(s, s);
    RunHandlerPreserves(c, Remembering(c, s.log), s);
  }

  /** What is about to happen when the pipeline is told something. */
  ghost function Before(c: Config, s: State, e: Event): State { if c.hasChannel then Emit(s, e) else s }

  lemma EmittedCore(c: Config, s: State, e: Event)
    requires Core(c, s)
    ensures Core(c, Emit(s, e))
  {
  }

  lemma FireGrows(c: Config, s: State, e: Event)
    requires Core(c, s)
    ensures var r := Fire(c, s, e); Core(c, r) && Past(Before(c, s, e).log, r)
  {
    hide Core; hide RunHandler;
    EmittedCore(c, s, e);
    SamePast(s, s);
    if c.hasChannel { RunHandlerGrows(c, Emit(s, e)); }
  }

  lemma CloseGrows(c: Config, s: State)
    requires Core(c, s)
    ensures var r := Close(c, s).s; Core(c, r) && Past(s.log, r)
  {
    hide Core; hide Close; hide Invariant;
    RememberingInvariant(c, s.log);
    SamePast(s, s);
    ClosePreserves(c, Remembering(c, s.log), s);
  }

  /** The state in which an operation that has failed leaves the endpoint. */
  ghost function Failing(c: Config, s: State, e: Error): State { Close(c, Fire(c, s, Exception(e))).s }

  /** A failure is told first, and the endpoint ends closed. */
  lemma FailGrows(c: Config, s: State, e: Error)
    requires Core(c, s)
    ensures var r := Failing(c, s, e); r.closed && Core(c, r) && Past(Before(c, s, Exception(e)).log, r)
  {
    hide Core; hide Fire; hide Close; hide Framed; hide Past; hide Before;
    FireGrows(c, s, Exception(e));
    var t := Fire(c, s, Exception(e));
    CloseGrows(c, t);
    PastTrans(Before(c, s, Exception(e)).log, t, Failing(c, s, e));
    CoreOpen(c, t);
    CloseFramed(c, t);
  }

  lemma CoreOpen(c: Config, s: State)
    requires Core(c, s)
    ensures Sound(s)
  {
  }

  lemma UpdateGrows(c: Config, s: State)
    requires Core(c, Settled(c, s))
    ensures var r := UpdateWritability(c, s); Core(c, r) && Past(Settled(c, s).log, r)
  {
    hide Core; hide UpdateWritability; hide Settled; hide Invariant;
    RememberingInvariant(c, Settled(c, s).log);
    SamePast(Settled(c, s), Settled(c, s));
    UpdatePreserves(c, Remembering(c, Settled(c, s).log), s);
  }

  lemma ReactGrows(c: Config, s: State, action: Reaction)
    requires Core(c, s)
    ensures var r := React(c, s, action); Core(c, r) && Past(s.log, r)
  {
    hide Core; hide React; hide Invariant;
    RememberingInvariant(c, s.log);
    SamePast(s, s);
    ReactPreserves(c, Remembering(c, s.log), s, action);
  }

  lemma FlushGrows(c: Config, s: State)
    requires Core(c, s) && c.mode != Completion && Whole(c, s)
    ensures var r := FlushOutbound(c, s).s; Core(c, r) && Past(s.log, r)
  {
    hide Core; hide FlushOutbound; hide Invariant; hide Whole;
    RememberingInvariant(c, s.log);
    SamePast(s, s);
    FlushOutboundPreserves(c, Remembering(c, s.log), s);
  }

  lemma RunGrows(c: Config, s: State, steps: seq<Step>)
    requires Core(c, s)
    ensures var r := Run(c, s, steps); Core(c, r) && Past(s.log, r)
  {
    hide Core; hide Run; hide Invariant;
    RememberingInvariant(c, s.log);
    SamePast(s, s);
    RunPreserves(c, Remembering(c, s.log), s, steps);
  }
}
