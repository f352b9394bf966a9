/** Whole lives of an endpoint: calls, poller events and answers of the outside world, in any order. */
module Runs {
  import opened Wrappers
  import opened Addresses
  import opened World
  import opened EndpointState
  import opened EndpointSpec
  import opened Frames
  import opened Preservation

  datatype Step =
    | Call(action: Reaction)       // the application calls the endpoint, or handles references
    | Report(event: PollEvent)     // the poller delivers an event
    | Provide(w: World)            // new handler scripts, socket outcomes, arrivals and answers

  ghost function Next(c: Config, s: State, step: Step): State {
    match step
    case Call(action) => React(c, s, action)
    case Report(event) => if Deliverable(c, s, event) then HandleEvent(c, s, event) else s
    case Provide(w) => if SameHoldings(w, s.w) then s.(w := w) else s
  }

  ghost function Run(c: Config, s: State, steps: seq<Step>): State
    decreases |steps|
  {
    if steps == [] then s else Run(c, Next(c, s, steps[0]), steps[1..])
  }

  lemma ReadyPreserves(c: Config, P: State -> bool, s: State, ev: PollEvent)
    requires Invariant(c, P) && P(s) && ev.Ready? && c.mode != Completion
    ensures P(HandleEvent(c, s, ev))
  {
    hide Invariant; hide Fire; hide Close; hide ReadReady; hide FlushOutbound; hide Framed; hide Whole;
    if !s.closed {
      CoreOf(c, P, s);
      if ev.error.Some? { FailPreserves(c, P, s, ev.error.value); }
      ClosePreserves(c, P, s);
      var s1 := if ev.canRead && (!c.hasChannel || s.w.autoRead) then ReadReady(c, s) else s;
      ReadPartPreserves(c, P, s);
      assert P(s1) && Whole(c, s1);
      FlushOutboundPreserves(c, P, s1);
      var o := FlushOutbound(c, s1);
      if o.error.Some? { FailPreserves(c, P, o.s, o.error.value); }
    }
  }

  lemma ReadPartPreserves(c: Config, P: State -> bool, s: State)
    requires Invariant(c, P) && P(s) && !s.closed && c.mode != Completion
    ensures P(ReadReady(c, s)) && Whole(c, ReadReady(c, s)) && Whole(c, s)
  {
    hide Invariant; hide ReadLoop;
    CoreOf(c, P, s);
    if !s.log.reading {
      ReadReadyPreserves(c, P, s);
      ReadReadyFramed(c, s);
    }
  }

  lemma EventPreserves(c: Config, P: State -> bool, s: State, ev: PollEvent)
    requires Invariant(c, P) && P(s) && Deliverable(c, s, ev)
    ensures P(HandleEvent(c, s, ev))
  {
    hide Invariant; hide Close; hide HandleWriteCompletion; hide HandleReadCompletion;
    match ev
    case Ready(_, _, _, _) => ReadyPreserves(c, P, s, ev);
    case WriteDone(error) => WriteCompletionPreserves(c, P, s, error);
    case ReadDone(data, from, error) => ReadCompletionPreserves(c, P, s, data, from, error);
    case CloseDone => ClosePreserves(c, P, s);
  }

  lemma NextPreserves(c: Config, P: State -> bool, s: State, step: Step)
    requires Invariant(c, P) && P(s)
    ensures P(Next(c, s, step))
  {
    hide Invariant; hide React; hide HandleEvent;
    match step
    case Call(action) => ReactPreserves(c, P, s, action);
    case Report(event) => if Deliverable(c, s, event) { EventPreserves(c, P, s, event); }
    case Provide(w) => if SameHoldings(w, s.w) { StepOutside(c, P, s, w); }
  }

  /** What every atom keeps holds after every run. */
  lemma {:induction false} RunPreserves(c: Config, P: State -> bool, s: State, steps: seq<Step>)
    requires Invariant(c, P) && P(s)
    ensures P(Run(c, s, steps))
    decreases |steps|
  {
    hide Invariant; hide Next;
    if steps != [] {
      NextPreserves(c, P, s, steps[0]);
      RunPreserves(c, P, Next(c, s, steps[0]), steps[1..]);
    }
  }

  // ---- lists of steps ----

  lemma RunNothing(c: Config, s: State)
    ensures Run(c, s, []) == s
  {
  }

  lemma RunFirst(c: Config, s: State, steps: seq<Step>)
    requires steps != []
    ensures Run(c, s, steps) == Run(c, Next(c, s, steps[0]), steps[1..])
  {
  }

  lemma {:induction false} RunConcat(c: Config, s: State, xs: seq<Step>, ys: seq<Step>)
    ensures Run(c, s, xs + ys) == Run(c, Run(c, s, xs), ys)
    decreases |xs|
  {
    hide Next;
    if xs == [] {
      assert [] + ys == ys;
    } else {
      assert (xs + ys)[1..] == xs[1..] + ys;
      RunConcat(c, Next(c, s, xs[0]), xs[1..], ys);
    }
  }

  lemma {:induction false} RunSnoc(c: Config, s: State, steps: seq<Step>, step: Step)
    ensures Run(c, s, steps + [step]) == Next(c, Run(c, s, steps), step)
    decreases |steps|
  {
    hide Next;
    if steps == [] {
      assert ([] + [step])[1..] == [];
    } else {
      assert (steps + [step])[1..] == steps[1..] + [step];
      RunSnoc(c, Next(c, s, steps[0]), steps[1..], step);
    }
  }
}
