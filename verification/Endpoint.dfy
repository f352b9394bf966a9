/**
 * The endpoint of endpoint.go as an object: flags, counters and the linked outbound queue, updated in place.
 * Every method does to the abstract state what the function of the same name in EndpointSpec says.
 */
module Endpoint {
  import opened Wrappers
  import opened Addresses
  import opened World
  import W = World
  import opened EndpointState
  import opened EndpointSpec
  import Spec = EndpointSpec
  import opened Receiving
  import opened Frames
  import F = Frames
  import opened Preservation
  import opened References
  import opened Safety
  import R = Runs
  import opened BatchIO
  import opened OutboundQueue

  const NO_DATAGRAM := Datagram(Buf(0, []), NO_ADDRESS, None)

  class Endpoint {
    const c: Config
    const env: Env
    const out: OutboundQueue
    const inSingle: array<Option<Inbound>>
    const inBatch: DatagramBatchReader
    const outBatch: DatagramBatchWriter

    var outboundBytes: int
    var closed: bool
    var inactiveFired: bool
    var writable: bool
    var writeInterest: bool
    var readPending: bool
    var writePending: bool

    /** A batch is being dispatched: no handler calls `Read` then. The source leaves this to the handlers. */
    var reading: bool

    ghost var log: Log
    ghost const fixed: set<object>

    /** The reader's slots are empty unless a batch is being dispatched. */
    ghost predicate Valid()
      reads this, fixed, out, out.Repr
      ensures Valid() ==>
                && this in fixed && env in fixed && Slots() <= fixed && fixed !! out.Repr
                && inBatch.Arrays() <= fixed && outBatch.Arrays() <= fixed
                && out.Valid() && reading == log.reading
    {
      && {this, env, inSingle} <= fixed && inBatch.Arrays() <= fixed && outBatch.Arrays() <= fixed
      && fixed !! out.Repr
      && out.Valid() && inBatch.Valid() && outBatch.Valid()
      && inSingle.Length == 1 && inSingle != inBatch.messages && inSingle as object != inBatch.buffers
      && Slots() !! outBatch.Arrays()
      && reading == log.reading && (reading || SlotsEmpty())
    }

    ghost function Slots(): set<object> { {inSingle, inBatch.messages, inBatch.buffers} }

    ghost predicate SlotsEmpty()
      reads inSingle, inBatch.messages
    {
      && (forall i :: 0 <= i < inSingle.Length ==> inSingle[i] == None)
      && (forall i :: 0 <= i < inBatch.messages.Length ==> inBatch.messages[i] == None)
    }

    /** The abstract state. */
    ghost function Model(): State
      requires out.Valid()
      reads this, env, out, out.Repr
    {
      State(out.Queue(), |out.spares|, outboundBytes, closed, inactiveFired, writable,
            writeInterest, readPending, writePending, env.w, log)
    }

    /** Valid, and with a reference behind everything the endpoint may release. */
    ghost predicate Ready()
      reads this, fixed, out, out.Repr
    {
      Valid() && Safe(c, Model())
    }

    /** Of the rest of the heap nothing changes but the free room for entries, and no batch being dispatched does. */
    twostate predicate Confined()
      reads this, inSingle, inBatch.messages, out
    {
      && fresh(out.Repr - old(out.Repr)) && log.reading == old(log.reading)
      && (log.reading && c.mode != Completion ==>
            inSingle[..] == old(inSingle[..]) && inBatch.messages[..] == old(inBatch.messages[..]))
    }

    twostate predicate Advanced()
      reads this, fixed, out, out.Repr
    {
      Ready() && Confined()
    }

    /** Validity is about the queue, the readers and `reading`; nothing else disturbs it. */
    twostate lemma Same()
      requires old(Valid()) && out.Repr == old(out.Repr)
      requires unchanged(out, old(out.Repr), inSingle, inBatch.messages, inBatch.buffers)
      requires reading == log.reading == old(reading)
      ensures Valid() && out.Queue() == old(out.Queue()) && out.spares == old(out.spares)
    {
      hide OutboundQueue.Links; hide OutboundQueue.Full; hide OutboundQueue.Empty; hide OutboundQueue.Datagrams;
    }

    /** The readers' slots have changed. */
    twostate lemma Refilled()
      requires old(Valid()) && out.Repr == old(out.Repr) && unchanged(out, old(out.Repr))
      requires inBatch.Valid() && reading == log.reading && (reading || SlotsEmpty())
      ensures Valid() && out.Queue() == old(out.Queue()) && out.spares == old(out.spares)
    {
      hide OutboundQueue.Links; hide OutboundQueue.Full; hide OutboundQueue.Empty; hide OutboundQueue.Datagrams;
    }

    /** The queue has changed, and nothing else that validity is about. */
    twostate lemma Requeued()
      requires old(Valid()) && out.Valid() && fresh(out.Repr - old(out.Repr))
      requires unchanged(inSingle, inBatch.messages, inBatch.buffers) && reading == log.reading == old(reading)
      ensures Valid()
    {
      hide OutboundQueue.Valid;
    }

    static method Parts()
      returns (q: OutboundQueue, r: DatagramBatchReader, w: DatagramBatchWriter, single: array<Option<Inbound>>)
      ensures fresh(q.Repr) && fresh(r.Arrays()) && fresh(w.Arrays()) && fresh(single)
      ensures q.Valid() && q.Queue() == [] && q.spares == [] && r.Valid() && w.Valid()
      ensures single.Length == 1 && single[0] == None
      ensures forall i :: 0 <= i < r.messages.Length ==> r.messages[i] == None
      ensures q.Repr !! r.Arrays() && q.Repr !! w.Arrays() && r.Arrays() !! w.Arrays()
      ensures single !in q.Repr && single !in r.Arrays() && single !in w.Arrays()
    {
      hide OutboundQueue.Valid; hide OutboundQueue.Queue;
      q := new OutboundQueue();
      r := new DatagramBatchReader();
      w := new DatagramBatchWriter();
      single := new Option<Inbound>[1](_ => None);
    }

    constructor (c: Config, env: Env)
      requires env.w == InitialWorld()
      ensures Ready() && fresh(fixed - {env}) && fresh(out.Repr)
      ensures Model() == Initial() && this.c == c && this.env == env
    {
      hide OutboundQueue.Valid; hide OutboundQueue.Queue; hide Safe;
      this.c := c;
      this.env := env;
      var q, r, w, single := Parts();
      out, inBatch, outBatch, inSingle := q, r, w, single;
      outboundBytes := 0;
      closed, inactiveFired, writable := false, false, true;
      writeInterest, readPending, writePending := false, false, false;
      reading, log := false, InitialLog();
      fixed := {this, env, single} + r.Arrays() + w.Arrays();
      new;
      SafeInitial(c);
    }

    // ---- handlers ----

    method Handle(action: Reaction)
      requires Ready()
      modifies env
      ensures Advanced() && Model() == old(Model()).(w := W.Handle(old(env.w), action))
    {
      hide Safe; hide Valid; hide OutboundQueue.Valid; hide OutboundQueue.Queue;
      hide W.Handle;
      SafeHandle(c, Model(), action);
      env.Handle(action);
      Same();
    }

    /** One action of a handler; it only writes what it holds. */
    method React(action: Reaction)
      requires Ready()
      modifies fixed, out.Repr
      ensures Advanced() && Model() == Spec.React(c, old(Model()), action)
      decreases Work(Model()) + 1, |env.w.script|, 12
    {
      hide Safe; hide Valid; hide OutboundQueue.Valid; hide OutboundQueue.Queue;
      hide Spec.Write; hide Spec.Flush; hide Spec.Read; hide Spec.Close; hide W.Handle; hide W.Owns; hide Work;
      match action
      case DoWrite(m) =>
        if W.Owns(env.w, m) {
          OwnsMeans(env.w, m);
          var _ := Write(m);
        }
      case DoFlush => var _ := Flush();
      case DoRead => if !(reading && c.mode != Completion) { var _ := Read(); }
      case DoClose => var _ := Close();
      case _ => Handle(action);
    }

    method NextReaction() returns (action: Reaction)
      requires Ready() && env.w.script != []
      modifies env
      ensures Advanced() && action == old(env.w.script[0])
      ensures Model() == old(Model()).(w := old(env.w).(script := old(env.w.script[1..])))
    {
      hide Safe; hide Valid; hide OutboundQueue.Valid; hide OutboundQueue.Queue;
      ghost var s := Model();
      action := env.NextReaction();
      Same();
      SafeOutside(c, s, env.w);
    }

    /** The handlers of the pipeline run. */
    method RunHandler()
      requires Ready()
      modifies fixed, out.Repr
      ensures Advanced() && Model() == Spec.RunHandler(c, old(Model()))
      decreases Work(Model()), |env.w.script|, 0
    {
      hide Safe; hide Valid; hide OutboundQueue.Valid; hide OutboundQueue.Queue;
      hide Spec.React; hide Spec.RunHandler; hide Work;
      RunHandlerIs(c, Model());
      if env.w.script == [] { return; }
      var action := NextReaction();
      if action != Return {
        React(action);
        RunHandler();
      }
    }

    static lemma RunHandlerIs(c: Config, s: State)
      ensures s.w.script == [] ==> Spec.RunHandler(c, s) == s
      ensures s.w.script != [] ==>
                var s1 := s.(w := s.w.(script := s.w.script[1..]));
                && Work(s1) < Work(s)
                && Spec.RunHandler(c, s) ==
                     if s.w.script[0] == Return then s1 else Spec.RunHandler(c, Spec.React(c, s1, s.w.script[0]))
    {
    }

    ghost method Record(e: Event)
      requires Ready() && Tellable(e)
      modifies this`log
      ensures Advanced() && Model() == Emit(old(Model()), e)
    {
      hide Safe; hide Valid; hide OutboundQueue.Valid; hide OutboundQueue.Queue;
      SafeTell(c, Model(), e);
      log := Emit(Model(), e).log;
      Same();
    }

    /** The pipeline is told. */
    method Fire(e: Event)
      requires Ready() && Tellable(e)
      modifies fixed, out.Repr
      ensures Advanced() && Model() == Spec.Fire(c, old(Model()), e)
      decreases Work(Model()), |env.w.script|, 1
    {
      hide Safe; hide Valid; hide OutboundQueue.Valid; hide OutboundQueue.Queue;
      hide Spec.RunHandler; hide Emit; hide Work;
      if !c.hasChannel { return; }
      EmitWork(Model(), e);
      Record(e);
      RunHandler();
    }

    /** `fireWritabilityChanged` */
    method Notify()
      requires Ready()
      modifies fixed, out.Repr
      ensures Advanced() && Model() == Spec.Notify(c, old(Model()))
      decreases Work(Model()), |env.w.script|, 1
    {
      hide Safe; hide Valid; hide OutboundQueue.Valid; hide OutboundQueue.Queue;
      hide Spec.RunHandler;
      if c.hasChannel { RunHandler(); }
    }

    // ---- writability ----

    /** The flag changes, and the pipeline is about to hear of it. */
    method SetWritable(on: bool)
      requires Valid()
      modifies this`writable, this`log
      ensures Valid() && Confined() && Model() == Toggle(c, old(Model()), on)
    {
      hide Safe; hide Valid; hide OutboundQueue.Valid; hide OutboundQueue.Queue;
      log := Toggle(c, Model(), on).log;
      writable := on;
      Same();
    }

    method CloseWritability()
      requires Valid() && closed && Safe(c, Settled(c, Model()))
      modifies fixed, out.Repr
      ensures Advanced() && Model() == Spec.CloseWritability(c, old(Model()))
      decreases Work(Model()), |env.w.script|, 2
    {
      hide Safe; hide Valid; hide OutboundQueue.Valid; hide OutboundQueue.Queue;
      hide Spec.Notify; hide Toggle; hide Work;
      ToggleWork(c, Model(), false);
      if writable {
        SetWritable(false);
        Notify();
      }
    }

    method UpdateWritability()
      requires Valid() && Safe(c, Settled(c, Model()))
      modifies fixed, out.Repr
      ensures Advanced() && Model() == Spec.UpdateWritability(c, old(Model()))
      decreases Work(Model()), |env.w.script|, 3
    {
      hide Safe; hide Valid; hide OutboundQueue.Valid; hide OutboundQueue.Queue;
      hide Spec.Notify; hide Toggle; hide Spec.CloseWritability; hide Work;
      if closed {
        CloseWritability();
        return;
      }
      ToggleWork(c, Model(), false);
      ToggleWork(c, Model(), true);
      var pending := outboundBytes;
      if writable && pending >= c.high {
        SetWritable(false);
        Notify();
        return;
      }
      if !writable && pending <= c.low {
        SetWritable(true);
        Notify();
      }
    }

    // ---- the queue ----

    /** The datagram joins the list, and the count of bytes. */
    method Attach(d: Datagram)
      requires Valid()
      modifies this`outboundBytes, out.Repr
      ensures Valid() && Confined()
      ensures var s := old(Model());
              Model() == s.(queue := s.queue + [d], spare := if s.spare == 0 then 0 else s.spare - 1, bytes := s.bytes + Size(d))
    {
      hide Safe; hide Valid; hide OutboundQueue.Valid; hide OutboundQueue.Queue;
      out.Append(d);
      outboundBytes := outboundBytes + Size(d);
      Requeued();
    }

    /** The datagram and its references join the queue. */
    method Append(d: Datagram)
      requires Valid() && multiset(Owned(d)) <= env.w.held
      modifies this`outboundBytes, this`log, env, out.Repr
      ensures Valid() && Confined() && Model() == Appended(old(Model()), d)
    {
      hide Safe; hide Valid; hide OutboundQueue.Valid; hide OutboundQueue.Queue;
      hide Owned;
      ghost var s := Model();
      Attach(d);
      Entrust(d, s);
    }

    method Entrust(d: Datagram, ghost s: State)
      requires Valid() && multiset(Owned(d)) <= env.w.held
      requires Model() == Appended(s, d).(w := s.w, log := s.log)
      modifies this`log, env
      ensures Valid() && Confined() && Model() == Appended(s, d)
    {
      hide Safe; hide Valid; hide OutboundQueue.Valid; hide OutboundQueue.Queue;
      hide Owned;
      env.Entrust(Owned(d));
      log := Appended(s, d).log;
      Same();
    }

    method Enqueue(d: Datagram)
      requires Ready() && !closed && multiset(Owned(d)) <= env.w.held
      modifies fixed, out.Repr
      ensures Advanced() && Model() == Spec.Enqueue(c, old(Model()), d)
      decreases Work(Model()) + 1, |env.w.script|, 4
    {
      hide Safe; hide Valid; hide OutboundQueue.Valid; hide OutboundQueue.Queue;
      hide Spec.UpdateWritability; hide Settled; hide Owned; hide Appended; hide Work;
      SafeAppend(c, Model(), d);
      AppendedWork(Model(), d);
      Append(d);
      UpdateWritability();
    }

    static lemma AppendedWork(s: State, d: Datagram)
      ensures Work(Appended(s, d)) == Work(s) + 1 && Appended(s, d).w.script == s.w.script
    {
    }

    /** The entry at the head leaves the list. */
    method Detach() returns (entry: Entry)
      requires Valid() && Model().queue != []
      modifies out
      ensures Valid() && Confined() && Model() == old(Model()).(queue := old(Model()).queue[1..])
      ensures entry in out.Repr && entry !in out.chain && entry !in out.spares
      ensures entry.datagram == Some(old(Model()).queue[0])
    {
      hide Safe; hide Valid; hide OutboundQueue.Valid; hide OutboundQueue.Queue;
      entry := out.Unlink();
      Requeued();
    }

    method Discount(n: nat)
      requires Valid()
      modifies this`outboundBytes
      ensures Valid() && Confined()
      ensures var b := old(outboundBytes); Model() == old(Model()).(bytes := if b < n then 0 else b - n)
    {
      hide Safe; hide Valid; hide OutboundQueue.Valid; hide OutboundQueue.Queue;
      outboundBytes := outboundBytes - n;
      if outboundBytes < 0 { outboundBytes := 0; }
      Same();
    }

    /** The datagram of a detached entry is released, and the entry becomes free. */
    method Retire(entry: Entry)
      requires Valid() && entry in out.Repr && entry !in out.chain && entry !in out.spares
      requires entry.datagram.Some? && multiset(Owned(entry.datagram.value)) <= env.w.refs
      modifies env, out, entry
      ensures Valid() && Confined()
      ensures var s := old(Model());
              Model() == s.(spare := s.spare + 1, w := W.ReleaseAll(s.w, Owned(old(entry.datagram.value))))
    {
      hide Safe; hide Valid; hide OutboundQueue.Valid; hide OutboundQueue.Queue;
      hide Owned; hide W.ReleaseAll;
      env.ReleaseAll(Owned(entry.datagram.value));
      out.ReleaseEntry(entry);
      Requeued();
    }

    ghost method RecordPop(s: State)
      requires Valid() && s.queue != [] && s.log == log && Model() == Popped(s).(log := s.log)
      modifies this`log
      ensures Valid() && Confined() && Model() == Popped(s)
    {
      hide Safe; hide Valid; hide OutboundQueue.Valid; hide OutboundQueue.Queue;
      hide W.ReleaseAll; hide Owned;
      log := Popped(s).log;
      Same();
    }

    /** The head leaves the queue, is released, and its entry becomes free. */
    method Pop()
      requires Valid() && Conserved(Model()) && Model().queue != []
      modifies this, env, out.Repr
      ensures Valid() && Confined() && Model() == Popped(old(Model()))
    {
      hide Safe; hide Valid; hide OutboundQueue.Valid; hide OutboundQueue.Queue;
      hide Owned; hide Conserved; hide W.ReleaseAll;
      ghost var s := Model();
      QueueOwned(s);
      var entry := TakeHead();
      RetireHead(entry, s);
    }

    /** The entry at the head, no longer counted. */
    method TakeHead() returns (entry: Entry)
      requires Valid() && Model().queue != []
      modifies this`outboundBytes, out
      ensures Valid() && Confined()
      ensures var s := old(Model()); Model() == s.(queue := s.queue[1..], bytes := Popped(s).bytes)
      ensures entry in out.Repr && entry !in out.chain && entry !in out.spares
      ensures entry.datagram == Some(old(Model()).queue[0])
    {
      hide Safe; hide Valid; hide OutboundQueue.Valid; hide OutboundQueue.Queue;
      hide W.ReleaseAll; hide Owned;
      entry := Detach();
      Discount(Size(entry.datagram.value));
    }

    method RetireHead(entry: Entry, ghost s: State)
      requires s.queue != [] && multiset(Owned(s.queue[0])) <= s.w.refs
      requires Valid() && Model() == s.(queue := s.queue[1..], bytes := Popped(s).bytes)
      requires entry in out.Repr && entry !in out.chain && entry !in out.spares && entry.datagram == Some(s.queue[0])
      modifies this`log, env, out, entry
      ensures Valid() && Confined() && Model() == Popped(s)
    {
      hide Safe; hide Valid; hide OutboundQueue.Valid; hide OutboundQueue.Queue;
      hide W.ReleaseAll; hide Owned;
      Retire(entry);
      RecordPop(s);
    }

    method Dequeue()
      requires Valid() && Conserved(Model())
      requires Safe(c, if Model().queue == [] then Model() else Settled(c, Popped(Model())))
      modifies fixed, out.Repr
      ensures Advanced() && Model() == Spec.Dequeue(c, old(Model()))
      decreases Work(Model()), |env.w.script|, 4
    {
      hide Safe; hide Valid; hide OutboundQueue.Valid; hide OutboundQueue.Queue;
      hide Spec.UpdateWritability; hide Settled; hide Popped; hide Conserved; hide Work;
      if out.outHead == null { return; }
      PoppedWork(Model());
      Pop();
      UpdateWritability();
    }

    static lemma PoppedWork(s: State)
      requires s.queue != []
      ensures Work(Popped(s)) == Work(s) - 1 && Popped(s).w.script == s.w.script
    {
    }

    /** Both loops of `releaseOutbound`, after the flag has settled. */
    method ReleaseOutbound()
      requires Ready() && closed && !writable
      modifies fixed, out.Repr
      ensures Advanced() && Model() == Spec.ReleaseOutbound(c, old(Model()))
      decreases Work(Model()), |env.w.script|, 5
    {
      hide Safe; hide Valid; hide OutboundQueue.Valid; hide OutboundQueue.Queue;
      hide Spec.Dequeue; hide Settled; hide Popped; hide Conserved; hide Spec.ReleaseOutbound; hide Work; hide Core;
      ghost var s0 := Model();
      while out.outHead != null
        invariant Advanced() && closed && !writable
        invariant Work(Model()) <= Work(s0) && |env.w.script| <= |s0.w.script|
        invariant Spec.ReleaseOutbound(c, s0) == Spec.ReleaseOutbound(c, Model())
        decreases Work(Model())
      {
        ghost var s := Model();
        ReleaseOutboundIs(c, s);
        SafePop(c, s);
        ClosedPop(c, s);
        SafeFacts(c, s);
        Dequeue();
      }
      ReleaseOutboundIs(c, Model());
      FreeEntries();
    }

    method FreeEntries()
      requires Ready() && closed && Model().queue == []
      modifies out.Repr
      ensures Advanced() && Model() == old(Model()).(spare := 0)
    {
      hide Safe; hide Valid; hide OutboundQueue.Valid; hide OutboundQueue.Queue;
      SafeNote(c, Model(), EndpointState.FreeEntries);
      out.FreeEntries();
      Requeued();
    }

    static lemma ReleaseOutboundIs(c: Config, s: State)
      ensures Spec.ReleaseOutbound(c, s) ==
              if s.queue == [] then s.(spare := 0) else Spec.ReleaseOutbound(c, Spec.Dequeue(c, s))
    {
    }

    static lemma ClosedPop(c: Config, s: State)
      requires s.closed && !s.writable && s.queue != []
      ensures Spec.Dequeue(c, s).closed && !Spec.Dequeue(c, s).writable
    {
      UpdateClosed(c, Popped(s));
    }

    // ---- the interface ----

    /** The caller's references are given up. */
    method Release(rs: seq<Resource>)
      requires Ready() && multiset(rs) <= env.w.held
      modifies env
      ensures Advanced() && Model() == old(Model()).(w := W.DropAll(old(env.w), rs))
    {
      hide Safe; hide Valid; hide OutboundQueue.Valid; hide OutboundQueue.Queue;
      hide Conserved; hide Core; hide W.DropAll;
      SafeFacts(c, Model());
      SafeHold(c, Model(), Lose(rs));
      env.DropAll(rs);
      Same();
    }

    method Write(m: Message) returns (error: Option<Error>)
      requires Ready() && multiset(MessageOwned(m)) <= env.w.held
      modifies fixed, out.Repr
      ensures Advanced() && Outcome(Model(), error) == Spec.Write(c, old(Model()), m)
      decreases Work(Model()) + 1, |env.w.script|, 5
    {
      hide Safe; hide Valid; hide OutboundQueue.Valid; hide OutboundQueue.Queue;
      hide Spec.Enqueue; hide RequestedDatagram; hide MessageOwned; hide Owned; hide W.DropAll; hide Work;
      var datagram := RequestedDatagram(c, m);
      if datagram.None? {
        Release(MessageOwned(m));
        return Some(ErrInvalidDatagram);
      }
      RequestedOwned(c, m);
      if closed {
        Release(Owned(datagram.value));
        return Some(ErrServerClosed);
      }
      Enqueue(datagram.value);
      return None;
    }

    method Flush() returns (error: Option<Error>)
      requires Ready()
      modifies fixed, out.Repr
      ensures Advanced() && Outcome(Model(), error) == Spec.Flush(c, old(Model()))
      decreases Work(Model()), |env.w.script|, 8
    {
      hide Safe; hide Valid; hide OutboundQueue.Valid; hide OutboundQueue.Queue;
      hide Spec.FlushOutbound; hide Spec.SubmitWrite; hide Conserved; hide Core; hide Whole; hide Work;
      SafeFacts(c, Model());
      if closed { return Some(ErrServerClosed); }
      if c.mode == Completion {
        error := SubmitWriteCompletion();
      } else {
        error := FlushOutbound();
      }
    }

    method Read() returns (error: Option<Error>)
      requires Ready() && (c.mode == Completion || !log.reading)
      modifies fixed, out.Repr
      ensures Advanced() && Outcome(Model(), error) == Spec.Read(c, old(Model()))
      decreases Work(Model()), |env.w.script|, 11
    {
      hide Safe; hide Valid; hide OutboundQueue.Valid; hide OutboundQueue.Queue;
      hide Spec.ReadReady; hide Spec.SubmitRead; hide Work;
      if closed { return Some(ErrServerClosed); }
      if c.mode == Completion {
        error := SubmitReadCompletion();
      } else {
        ReadReady();
        error := None;
      }
    }

    /** The flag that makes Close happen once. */
    method BeginClose()
      requires Ready() && !closed
      modifies this`closed
      ensures Valid() && Confined() && Model() == old(Model()).(closed := true) && Safe(c, Settled(c, Model()))
    {
      hide Safe; hide Valid; hide OutboundQueue.Valid; hide OutboundQueue.Queue;
      hide Settled;
      SafeClose(c, Model());
      closed := true;
      Same();
    }

    /** `closeFD` and the allocator's Close. */
    ghost method CloseResources()
      requires Ready() && closed && !writable && Model().queue == [] && Model().spare == 0 && Unclosed(Model())
      modifies this`log
      ensures Advanced() && Model() == Spec.CloseResources(c, old(Model()))
    {
      hide Safe; hide Valid; hide OutboundQueue.Valid; hide OutboundQueue.Queue;
      SafeCloseResources(c, Model());
      log := Spec.CloseResources(c, Model()).log;
      Same();
    }

    method Close() returns (error: Option<Error>)
      requires Ready()
      modifies fixed, out.Repr
      ensures Advanced() && Outcome(Model(), error) == Spec.Close(c, old(Model()))
      decreases Work(Model()), |env.w.script|, 7
    {
      hide Safe; hide Valid; hide OutboundQueue.Valid; hide OutboundQueue.Queue;
      hide Conserved; hide Core; hide Settled; hide Work; hide Framed; hide Whole;
      hide Spec.CloseWritability; hide Spec.ReleaseOutbound; hide Spec.FireInactiveOnce; hide Spec.CloseResources;
      if closed { return None; }
      SafeFacts(c, Model());
      ClosingWork(Model());
      BeginClose();
      ghost var s0 := Model();
      ClosingFrame(c, s0);
      CloseWritability();
      FinishClose();
      return if c.closeFails || (c.hasAllocator && c.allocatorCloseFails) then Some(ErrClose) else None;
    }

    /** What Close does once the flag has settled. */
    method FinishClose()
      requires Ready() && closed && !writable && Unclosed(Model())
      modifies fixed, out.Repr
      ensures Advanced()
      ensures Model() == Spec.FireInactiveOnce(c, Spec.CloseResources(c, Spec.ReleaseOutbound(c, old(Model()))))
      decreases Work(Model()), |env.w.script|, 6
    {
      hide Safe; hide Valid; hide OutboundQueue.Valid; hide OutboundQueue.Queue;
      hide Spec.ReleaseOutbound; hide Spec.FireInactiveOnce; hide Spec.CloseResources; hide Work; hide Unclosed;
      ReleasedFrame(c, Model());
      ReleaseOutbound();
      CloseResources();
      FireInactiveOnce();
    }

    static lemma ClosingWork(s: State)
      ensures Work(s.(closed := true)) == Work(s)
    {
    }

    static lemma ClosingFrame(c: Config, s: State)
      requires s.closed && Unclosed(s)
      ensures var s1 := Spec.CloseWritability(c, s); s1.closed && !s1.writable && Unclosed(s1)
    {
      hide Spec.CloseWritability;
      CloseWritabilityFramed(c, s);
    }

    static lemma ReleasedFrame(c: Config, s: State)
      requires s.closed && !s.writable && Unclosed(s)
      ensures var s2 := Spec.ReleaseOutbound(c, s);
              && s2.closed && !s2.writable && s2.queue == [] && s2.spare == 0 && Unclosed(s2)
      ensures var s3 := Spec.CloseResources(c, Spec.ReleaseOutbound(c, s));
              && s3.log.fdCloses == 1 && s3.w == Spec.ReleaseOutbound(c, s).w
              && Work(s3) == Work(Spec.ReleaseOutbound(c, s))
    {
      hide Spec.ReleaseOutbound;
      ReleaseOutboundFrame(c, s);
    }

    method MarkInactive()
      requires Ready() && log.fdCloses == 1 && !inactiveFired
      modifies this`inactiveFired, this`log
      ensures Advanced() && Model() == MarkedInactive(c, old(Model()))
    {
      hide Safe; hide Valid; hide OutboundQueue.Valid; hide OutboundQueue.Queue;
      SafeNote(c, Model(), EndpointState.MarkInactive);
      log := MarkedInactive(c, Model()).log;
      inactiveFired := true;
      Same();
    }

    method FireInactiveOnce()
      requires Ready() && log.fdCloses == 1
      modifies fixed, out.Repr
      ensures Advanced() && Model() == Spec.FireInactiveOnce(c, old(Model()))
      decreases Work(Model()), |env.w.script|, 2
    {
      hide Safe; hide Valid; hide OutboundQueue.Valid; hide OutboundQueue.Queue;
      hide Spec.RunHandler; hide Work;
      if inactiveFired { return; }
      MarkedWork(c, Model());
      MarkInactive();
      if c.hasChannel { RunHandler(); }
    }

    static lemma MarkedWork(c: Config, s: State)
      ensures Work(MarkedInactive(c, s)) == Work(s) && MarkedInactive(c, s).w == s.w
    {
    }

    // ---- readiness mode: sending ----

    method EnableWriteInterest() returns (error: Option<Error>)
      requires Valid()
      modifies this`writeInterest, env
      ensures Valid() && Confined() && Outcome(Model(), error) == Spec.EnableWriteInterest(c, old(Model()))
    {
      hide Safe; hide Valid; hide OutboundQueue.Valid; hide OutboundQueue.Queue;
      if c.mode == NoLoop || writeInterest { return None; }
      writeInterest := true;
      var answer := env.Modify(true);
      Same();
      return if answer == Accepted then None else Some(ErrPoller);
    }

    method DisableWriteInterest() returns (error: Option<Error>)
      requires Valid()
      modifies this`writeInterest, env
      ensures Valid() && Confined() && Outcome(Model(), error) == Spec.DisableWriteInterest(c, old(Model()))
    {
      hide Safe; hide Valid; hide OutboundQueue.Valid; hide OutboundQueue.Queue;
      if c.mode == NoLoop || !writeInterest { return None; }
      writeInterest := false;
      var answer := env.Modify(false);
      Same();
      return if answer == Rejected then Some(ErrPoller) else None;
    }

    /** `sendOutboundBatch` */
    method SendOutboundBatch(batch: seq<Datagram>) returns (sent: nat, again: bool, error: Option<Error>)
      requires Valid() && |batch| <= MAX_WRITE_BATCH
      modifies env, outBatch.Arrays()
      ensures Valid() && Confined()
      ensures var r := SendBatch(c.linux, c.ifaces, batch, old(env.w).sends);
              && sent == r.sent && again == r.again && error == r.error
              && Model() == old(Model()).(w := old(env.w).(sends := r.rest))
    {
      hide OutboundQueue.Valid; hide OutboundQueue.Queue; hide LinuxSend; hide FallbackSend; hide SlotsEmpty; hide Safe;
      if c.linux {
        assert batch[..|batch|] == batch;
        sent, again, error := outBatch.SendLinux(env, c.ifaces, batch);
      } else {
        sent, again, error := outBatch.SendFallback(env, c.ifaces, batch);
      }
      Same();
    }

    /** One batch of up to 64 datagrams, copied from the head of the list and offered to the socket. */
    method OfferBatch(batch: array<Datagram>)
      returns (count: nat, sent: nat, again: bool, error: Option<Error>, ghost r: SendResult)
      requires Valid() && batch.Length == MAX_WRITE_BATCH && batch !in fixed && batch !in out.Repr
      modifies this`log, env, outBatch.Arrays(), batch
      ensures Valid() && Confined()
      ensures var s := old(Model());
              && count == Min(MAX_WRITE_BATCH, |s.queue|)
              && r == SendBatch(c.linux, c.ifaces, s.queue[..count], s.w.sends)
              && sent == r.sent && again == r.again && error == r.error
              && r.taken <= |s.queue| && Model() == Batched(s, r)
    {
      hide Safe; hide Valid; hide OutboundQueue.Valid; hide OutboundQueue.Queue;
      hide SendBatch;
      ghost var s := Model();
      count := out.CopyBatch(batch);
      Same();
      sent, again, error := SendOutboundBatch(batch[..count]);
      r := SendBatch(c.linux, c.ifaces, s.queue[..count], s.w.sends);
      label L:
      log := Batched(s, r).log;
      Same@L();
    }

    /** The inner loop of `flushOutbound` */
    method DequeueSent(n: nat)
      requires Ready() && c.mode != Completion
      requires closed || (log.depth > 0 && (log.resent || n <= log.inFlight))
      modifies fixed, out.Repr
      ensures Advanced() && Model() == Spec.DequeueN(c, old(Model()), n)
      decreases Work(Model()), |env.w.script|, 5, 0
    {
      hide Safe; hide Valid; hide OutboundQueue.Valid; hide OutboundQueue.Queue;
      hide Spec.Dequeue; hide Settled; hide Popped; hide Conserved; hide Core; hide Work; hide Spec.DequeueN;
      ghost var s0 := Model();
      for index := 0 to n
        invariant Advanced()
        invariant closed || (log.depth > 0 && (log.resent || n - index <= log.inFlight))
        invariant Work(Model()) <= Work(s0) && |env.w.script| <= |s0.w.script|
        invariant Spec.DequeueN(c, s0, n) == Spec.DequeueN(c, Model(), n - index)
      {
        ghost var s := Model();
        SafeDequeue(c, s, n - index);
        DequeueNIs(c, s, n - index);
        Dequeue();
      }
      DequeueNIs(c, Model(), 0);
    }

    static lemma DequeueNIs(c: Config, s: State, n: nat)
      ensures Spec.DequeueN(c, s, n) == if n == 0 then s else Spec.DequeueN(c, Spec.Dequeue(c, s), n - 1)
    {
    }

    /** The send loop begins, */
    ghost method BeginLoop()
      requires Ready() && c.mode != Completion
      modifies this`log
      ensures Advanced() && Model() == StartLoop(old(Model()))
    {
      hide Safe; hide Valid; hide OutboundQueue.Valid; hide OutboundQueue.Queue;
      hide StartLoop;
      SafeStart(c, Model());
      log := StartLoop(Model()).log;
      Same();
    }

    /** and is over. */
    ghost method StopLoop()
      requires Valid()
      modifies this`log
      ensures Valid() && Confined() && Model() == EndLoop(old(Model()))
    {
      hide Safe; hide Valid; hide OutboundQueue.Valid; hide OutboundQueue.Queue;
      log := EndLoop(Model()).log;
      Same();
    }

    method FlushOutbound() returns (error: Option<Error>)
      requires Ready() && c.mode != Completion && Whole(c, Model())
      modifies fixed, out.Repr
      ensures Advanced() && Outcome(Model(), error) == Spec.FlushOutbound(c, old(Model()))
      decreases Work(Model()), |env.w.script|, 7
    {
      hide Safe; hide Valid; hide OutboundQueue.Valid; hide OutboundQueue.Queue;
      hide Conserved; hide Core; hide Whole; hide Work; hide Monotone;
      hide Spec.FlushLoop; hide Spec.EnableWriteInterest; hide Spec.DisableWriteInterest; hide Spec.Fire;
      hide StartLoop; hide EndLoop;
      SafeStart(c, Model());
      LoopWork(Model());
      BeginLoop();
      ghost var s0 := Model();
      var end := RunFlushLoop();
      SafeEnding(c, s0, Model(), end);
      error := FinishFlush(end);
    }

    /** What `flushOutbound` does when its loop has ended. */
    method FinishFlush(end: LoopEnd) returns (error: Option<Error>)
      requires Valid()
      requires end.SendFailed? ==> Safe(c, EndLoop(Model()))
      requires end == Blocked ==> Safe(c, EndLoop(Spec.EnableWriteInterest(c, Model()).s))
      requires end == Drained ==> Safe(c, EndLoop(Spec.DisableWriteInterest(c, Model()).s))
      modifies fixed, out.Repr
      ensures Advanced()
      ensures var s := old(Model());
              var o := if end == Blocked then Spec.EnableWriteInterest(c, s) else Spec.DisableWriteInterest(c, s);
              Outcome(Model(), error) ==
                if end.SendFailed? then Outcome(EndLoop(s), Some(end.error))
                else if end == Blocked || o.error.Some? then Outcome(EndLoop(o.s), o.error)
                else Outcome(Spec.Fire(c, EndLoop(o.s), FlushComplete), None)
      decreases Work(Model()), |env.w.script|, 6
    {
      hide Safe; hide Valid; hide OutboundQueue.Valid; hide OutboundQueue.Queue;
      hide Spec.EnableWriteInterest; hide Spec.DisableWriteInterest; hide Spec.Fire; hide EndLoop; hide Work;
      InterestWork(c, Model());
      match end
      case SendFailed(e) =>
        StopLoop();
        return Some(e);
      case Blocked =>
        error := EnableWriteInterest();
        StopLoop();
      case Drained =>
        error := DisableWriteInterest();
        LoopWork(Model());
        StopLoop();
        if error.Some? { return; }
        Fire(FlushComplete);
    }

    static lemma LoopWork(s: State)
      ensures Work(StartLoop(s)) == Work(s) == Work(EndLoop(s))
    {
    }

    static lemma InterestWork(c: Config, s: State)
      ensures Work(Spec.DisableWriteInterest(c, s).s) == Work(s)
    {
    }

    /** The outer loop of `flushOutbound` */
    method RunFlushLoop() returns (end: LoopEnd)
      requires Ready() && c.mode != Completion && log.depth > 0 && Whole(c, Model())
      requires !closed && !log.nested && !log.partial ==> log.inFlight == 0
      modifies fixed, out.Repr
      ensures Advanced() && (Model(), end) == Spec.FlushLoop(c, MAX_WRITE_BATCH, old(Model()))
      decreases Work(Model()), |env.w.script|, 6
    {
      hide Safe; hide Valid; hide OutboundQueue.Valid; hide OutboundQueue.Queue;
      hide Conserved; hide Core; hide Batched; hide Whole; hide Work;
      hide Spec.DequeueN; hide SendBatch; hide Spec.FlushLoop;
      ghost var s0 := Model();
      var batch := new Datagram[MAX_WRITE_BATCH](_ => NO_DATAGRAM);
      while out.outHead != null
        invariant Advanced() && fresh(batch) && batch !in out.Repr && batch !in fixed
        invariant log.depth > 0 && Whole(c, Model())
        invariant !closed && !log.nested && !log.partial ==> log.inFlight == 0
        invariant Work(Model()) <= Work(s0) && |env.w.script| <= |s0.w.script|
        invariant Spec.FlushLoop(c, MAX_WRITE_BATCH, s0) == Spec.FlushLoop(c, MAX_WRITE_BATCH, Model())
        decreases Work(Model())
      {
        ghost var s := Model();
        FlushLoopIs(c, s);
        SafeFlushStep(c, s);
        end := FlushRound(batch);
        if end != Drained { return; }
      }
      FlushLoopIs(c, Model());
      return Drained;
    }

    /** One round of the outer loop: a batch is offered, and what was sent leaves the queue; `Drained` means go on. */
    method FlushRound(batch: array<Datagram>) returns (end: LoopEnd)
      requires Ready() && c.mode != Completion && log.depth > 0 && Whole(c, Model()) && Model().queue != []
      requires !closed && !log.nested && !log.partial ==> log.inFlight == 0
      requires batch.Length == MAX_WRITE_BATCH && batch !in fixed && batch !in out.Repr
      modifies fixed, out.Repr, batch
      ensures Advanced() && batch !in out.Repr
      ensures var s := old(Model());
              var sends := s.queue[..Min(MAX_WRITE_BATCH, |s.queue|)];
              var r := SendBatch(c.linux, c.ifaces, sends, s.w.sends);
              var s1 := Batched(s, r);
              && Model() == (if r.error.Some? then s1 else Spec.DequeueN(c, s1, r.sent))
              && end == if r.error.Some? then SendFailed(r.error.value)
                        else if r.again || r.sent < |sends| then Blocked else Drained
      decreases Work(Model()), |env.w.script|, 5, 1
    {
      hide Safe; hide Valid; hide OutboundQueue.Valid; hide OutboundQueue.Queue;
      hide Batched; hide Whole; hide Work; hide Spec.DequeueN; hide SendBatch;
      SafeFlushStep(c, Model());
      var count, sent, again, error, r := OfferBatch(batch);
      if error.Some? { return SendFailed(error.value); }
      DequeueSent(sent);
      return if again || sent < count then Blocked else Drained;
    }

    static lemma FlushLoopIs(c: Config, s: State)
      ensures Spec.FlushLoop(c, MAX_WRITE_BATCH, s) ==
              if s.queue == [] then (s, Drained) else
                var batch := s.queue[..Min(MAX_WRITE_BATCH, |s.queue|)];
                var sent := SendBatch(c.linux, c.ifaces, batch, s.w.sends);
                var s1 := Batched(s, sent);
                if sent.error.Some? then (s1, SendFailed(sent.error.value)) else
                  var s2 := Spec.DequeueN(c, s1, sent.sent);
                  if sent.again || sent.sent < |batch| then (s2, Blocked)
                  else Spec.FlushLoop(c, MAX_WRITE_BATCH, s2)
    {
      hide SendBatch; hide Spec.DequeueN; hide Batched;
    }

    // ---- readiness mode: receiving ----

    /** The slots of `messages` hold `ms[index..]` at their places; all other slots are empty. */
    ghost predicate Pending(messages: array<Option<Inbound>>, ms: seq<Inbound>, index: nat)
      reads messages, inSingle, inBatch.messages
      ensures Pending(messages, ms, index) ==> messages as object in Slots()
    {
      && (messages == inSingle || messages == inBatch.messages)
      && index <= |ms| <= messages.Length
      && (forall i :: index <= i < |ms| ==> messages[i] == Some(ms[i]))
      && (forall i :: 0 <= i < messages.Length && (i < index || i >= |ms|) ==> messages[i] == None)
      && (messages != inSingle ==> forall i :: 0 <= i < inSingle.Length ==> inSingle[i] == None)
      && (messages != inBatch.messages ==>
            forall i :: 0 <= i < inBatch.messages.Length ==> inBatch.messages[i] == None)
    }

    /** `receiveInbound`: the messages are in one of the endpoint's two arrays. */
    method ReceiveInbound(limit: int)
      returns (messages: array<Option<Inbound>>, n: nat, drained: bool, error: Option<Error>)
      requires Valid() && !reading && limit >= 1 && env.w.inHand <= env.w.refs
      modifies env, inSingle, inBatch.Arrays()
      ensures var r := W.ReceiveInbound(c.linux, old(env.w), c.readBufferSize, limit);
              && env.w == r.w && drained == r.drained && error == r.error && n == |r.messages|
              && Pending(messages, r.messages, 0)
      ensures out.Repr == old(out.Repr) && unchanged(out, old(out.Repr)) && inBatch.Valid()
    {
      hide OutboundQueue.Valid; hide OutboundQueue.Queue; hide ReceiveSingle; hide ReceiveBatch;
      if limit <= 1 {
        var message;
        message, drained, error := ReceiveOne(env, c.readBufferSize);
        if message.None? { return inSingle, 0, drained, error; }
        inSingle[0] := message;
        return inSingle, 1, drained, error;
      }
      if c.linux {
        n, drained, error := inBatch.ReceiveLinux(env, c.readBufferSize, limit);
      } else {
        n, drained, error := inBatch.ReceiveFallback(env, c.readBufferSize, limit);
      }
      messages := inBatch.messages;
    }

    /** A batch arrives, and its dispatch begins. */
    method Receive(limit: int, ghost got: Received)
      returns (messages: array<Option<Inbound>>, n: nat, drained: bool, error: Option<Error>)
      requires Ready() && !reading && limit >= 1
      requires got == W.ReceiveInbound(c.linux, env.w, c.readBufferSize, limit)
      modifies this`reading, this`log, env, inSingle, inBatch.Arrays()
      ensures Ready() && fresh(out.Repr - old(out.Repr)) && reading
      ensures drained == got.drained && error == got.error && n == |got.messages| && Pending(messages, got.messages, 0)
      ensures Refs(got.messages) <= env.w.inHand
      ensures Model() == SetReading(old(Model()).(w := got.w), true)
    {
      hide Safe; hide Valid; hide OutboundQueue.Valid; hide OutboundQueue.Queue;
      hide Conserved; hide Core; hide Refs; hide W.ReceiveInbound; hide SetReading; hide Pending;
      ghost var s := Model();
      SafeFacts(c, s);
      SafeReceive(c, s, c.readBufferSize, limit);
      messages, n, drained, error := ReceiveInbound(limit);
      SafeReading(c, s.(w := got.w), true);
      ghost var l := SetReading(s.(w := got.w), true).log;
      assert l.reading;
      reading, log := true, l;
      Refilled();
    }

    /** `releaseReceivedDatagrams(messages[index:])` */
    method ReleaseReceived(messages: array<Option<Inbound>>, ghost ms: seq<Inbound>, index: nat, n: nat)
      requires Valid() && Pending(messages, ms, index) && n == |ms| && reading
      requires Refs(ms[index..]) <= env.w.inHand <= env.w.refs
      modifies env, messages
      ensures Valid() && Pending(messages, ms, n)
      ensures Model() == old(Model()).(w := W.DiscardAll(old(env.w), Payloads(ms[index..])))
    {
      hide Safe; hide Valid; hide OutboundQueue.Valid; hide OutboundQueue.Queue;
      hide W.DiscardAll; hide W.Discard; hide Bufs; hide BufRefs; hide Pending; hide Refs;
      ghost var w0 := env.w;
      ghost var ids := Payloads(ms);
      PendingRange(messages, ms, index);
      PayloadsFrom(w0, ms, index);
      for i := index to n
        invariant Valid() && Pending(messages, ms, i) && reading
        invariant Model() == old(Model()).(w := W.DiscardAll(w0, ids[index..i]))
      {
        DiscardNext(w0, ids, index, i);
        ReleaseMessage(messages, ms, i);
      }
      assert ids[index..n] == ids[index..];
    }

    method ReleaseMessage(messages: array<Option<Inbound>>, ghost ms: seq<Inbound>, i: nat)
      requires Valid() && Pending(messages, ms, i) && i < |ms| && reading
      requires BufRef(ms[i].payload.id) in env.w.inHand && BufRef(ms[i].payload.id) in env.w.refs
      modifies env, messages
      ensures Valid() && Pending(messages, ms, i + 1) && reading
      ensures Model() == LoseRef(old(Model()), ms[i].payload.id)
    {
      hide OutboundQueue.Valid; hide OutboundQueue.Queue; hide W.Discard;
      env.Discard(messages[i].value.payload.id);
      messages[i] := None;
      Refilled();
    }

    lemma PendingRange(messages: array<Option<Inbound>>, ms: seq<Inbound>, index: nat)
      requires Pending(messages, ms, index)
      ensures index <= |ms|
    {
    }

    static lemma PayloadsFrom(w: World, ms: seq<Inbound>, index: nat)
      requires index <= |ms|
      ensures var ids := Payloads(ms);
              && ids[index..] == Payloads(ms[index..]) && Refs(ms[index..]) == BufRefs(ids[index..])
              && W.DiscardAll(w, ids[index..index]) == w
    {
      hide W.DiscardAll;
      var ids := Payloads(ms);
      NothingDiscarded(w);
      assert ids[index..index] == [] && ids[index..] == Payloads(ms[index..]);
    }

    /** A message leaves its slot. */
    method TakeMessage(messages: array<Option<Inbound>>, ghost ms: seq<Inbound>, index: nat) returns (m: Inbound)
      requires Ready() && reading && Pending(messages, ms, index) && index < |ms|
      modifies messages
      ensures Ready() && Model() == old(Model()) && reading && m == ms[index] && Pending(messages, ms, index + 1)
      ensures out.Repr == old(out.Repr)
    {
      hide OutboundQueue.Valid; hide OutboundQueue.Queue; hide Safe;
      m := messages[index].value;
      messages[index] := None;
      Refilled();
    }

    /** The pipeline takes over a reference. */
    method PassOn(r: Resource)
      requires Ready() && r in env.w.inHand
      modifies env
      ensures Advanced() && Model() == old(Model()).(w := W.HandOver(old(env.w), r))
    {
      hide Safe; hide Valid; hide OutboundQueue.Valid; hide OutboundQueue.Queue;
      hide W.HandOver;
      SafeHold(c, Model(), Handing(r));
      env.HandOver(r);
      Same();
    }

    /** The handlers are about to be told of a datagram and who sent it. */
    ghost method Announce(m: Inbound, from: Address, envelope: Option<nat>)
      requires Ready() && Markable(c, Announcing(m, envelope), Model()) && from == FromSocketAddress(m.from)
      modifies this`log
      ensures Advanced()
      ensures Model() == Emit(Dispatched(old(Model()), m), ChannelRead(m.payload, from, envelope))
    {
      hide Safe; hide Valid; hide OutboundQueue.Valid; hide OutboundQueue.Queue; hide FromSocketAddress;
      SafeNote(c, Model(), Announcing(m, envelope));
      log := Emit(Dispatched(Model(), m), ChannelRead(m.payload, from, envelope)).log;
      Same();
    }

    method AcquireEnvelope() returns (envelope: nat)
      requires Ready()
      modifies env
      ensures Advanced() && envelope == W.AcquireEnvelope(old(env.w)).1
      ensures Model() == old(Model()).(w := W.AcquireEnvelope(old(env.w)).0)
    {
      hide Safe; hide Valid; hide OutboundQueue.Valid; hide OutboundQueue.Queue;
      hide W.AcquireEnvelope;
      SafeHold(c, Model(), MakeEnvelope);
      envelope := env.AcquireEnvelope();
      Same();
    }

    method FireChannelRead(m: Inbound)
      requires Ready() && c.hasChannel && BufRef(m.payload.id) in env.w.inHand
      modifies fixed, out.Repr
      ensures Advanced() && Model() == Spec.FireChannelRead(c, old(Model()), m)
      decreases Work(Model()), |env.w.script|, 2, 0
    {
      hide Safe; hide Valid; hide OutboundQueue.Valid; hide OutboundQueue.Queue;
      hide Spec.RunHandler; hide Spec.Arrived; hide Work;
      ReadWork(c, Model(), m);
      Arrive(m);
      RunHandler();
    }

    /** Buffer and, of a pooled datagram, envelope pass to the handlers. */
    method Arrive(m: Inbound)
      requires Ready() && c.hasChannel && BufRef(m.payload.id) in env.w.inHand
      modifies this`log, env
      ensures Advanced() && Model() == Spec.Arrived(c, old(Model()), m)
    {
      hide Safe; hide Valid; hide OutboundQueue.Valid; hide OutboundQueue.Queue;
      hide W.HandOver; hide W.AcquireEnvelope; hide FromSocketAddress; hide Work;
      ReadWork(c, Model(), m);
      PassOn(BufRef(m.payload.id));
      var from := FromSocketAddress(m.from);
      if c.pooled {
        var envelope := AcquireEnvelope();
        Announce(m, from, Some(envelope));
      } else {
        Announce(m, from, None);
      }
    }

    static lemma ReadWork(c: Config, s: State, m: Inbound)
      ensures var r := Spec.Arrived(c, s, m); Work(r) == Work(s) && r.w.script == s.w.script
      ensures var w := W.HandOver(s.w, BufRef(m.payload.id));
              EnvelopeRef(W.AcquireEnvelope(w).1) in W.AcquireEnvelope(w).0.held
    {
    }

    /** The inner loop of `readReady`: every slot is cleared before its message is handed on. */
    method Dispatch(messages: array<Option<Inbound>>, ghost ms: seq<Inbound>, n: nat, any: bool) returns (read: bool)
      requires Ready() && c.hasChannel && c.mode != Completion && reading
      requires Pending(messages, ms, 0) && n == |ms| && Refs(ms) <= env.w.inHand
      modifies fixed, out.Repr
      ensures Ready() && fresh(out.Repr - old(out.Repr)) && reading && SlotsEmpty()
      ensures (Model(), read) == Spec.Dispatch(c, old(Model()), ms, any)
      decreases Work(Model()), |env.w.script|, 3
    {
      hide Safe; hide Valid; hide OutboundQueue.Valid; hide OutboundQueue.Queue;
      hide Spec.FireChannelRead; hide Conserved; hide Refs; hide Core; hide Pending; hide SlotsEmpty; hide Work;
      hide W.DiscardAll; hide Payloads; hide Spec.Dispatch;
      ghost var s0 := Model();
      read := any;
      assert ms[0..] == ms;
      for index := 0 to n
        invariant Ready() && fresh(out.Repr - old(out.Repr)) && reading && Pending(messages, ms, index)
        invariant Refs(ms[index..]) <= env.w.inHand
        invariant Work(Model()) <= Work(s0) && |env.w.script| <= |s0.w.script|
        invariant Spec.Dispatch(c, s0, ms, any) == Spec.Dispatch(c, Model(), ms[index..], read)
      {
        ghost var s := Model();
        SafeDispatch(c, s, ms[index..]);
        DispatchIs(c, s, ms[index..], read);
        if closed {
          ReleaseReceived(messages, ms, index, n);
          AllTaken(messages, ms);
          return;
        }
        assert ms[index..][1..] == ms[index + 1..];
        var message := TakeMessage(messages, ms, index);
        DispatchNext(messages, ms, index, message);
        read := true;
      }
      DispatchIs(c, Model(), [], read);
      AllTaken(messages, ms);
    }

    /** The handlers see a message whose slot is already empty, and leave the other slots alone. */
    method DispatchNext(messages: array<Option<Inbound>>, ghost ms: seq<Inbound>, ghost index: nat, m: Inbound)
      requires Ready() && c.hasChannel && c.mode != Completion && reading && index < |ms|
      requires Pending(messages, ms, index + 1) && BufRef(m.payload.id) in env.w.inHand
      modifies fixed, out.Repr
      ensures Advanced() && reading && Pending(messages, ms, index + 1)
      ensures Model() == Spec.FireChannelRead(c, old(Model()), m)
      decreases Work(Model()), |env.w.script|, 2, 1
    {
      hide Safe; hide Valid; hide OutboundQueue.Valid; hide OutboundQueue.Queue;
      hide Spec.FireChannelRead; hide Work;
      ghost var single, batch := inSingle[..], inBatch.messages[..];
      FireChannelRead(m);
      assert inSingle[..] == single && inBatch.messages[..] == batch;
      assert forall i :: 0 <= i < inSingle.Length ==> inSingle[i] == single[i];
      assert forall i :: 0 <= i < inBatch.messages.Length ==> inBatch.messages[i] == batch[i];
    }

    lemma AllTaken(messages: array<Option<Inbound>>, ms: seq<Inbound>)
      requires Pending(messages, ms, |ms|)
      ensures SlotsEmpty()
    {
    }

    static lemma DispatchIs(c: Config, s: State, ms: seq<Inbound>, any: bool)
      requires c.hasChannel
      ensures Spec.Dispatch(c, s, ms, any) ==
              if ms == [] then (s, any)
              else if s.closed then (s.(w := W.DiscardAll(s.w, Payloads(ms))), any)
              else Spec.Dispatch(c, Spec.FireChannelRead(c, s, ms[0]), ms[1..], true)
    {
    }

    /** The pipeline hears of a failure, and the endpoint closes. */
    method Fail(e: Error)
      requires Ready()
      modifies fixed, out.Repr
      ensures Advanced() && Model() == Spec.Close(c, Spec.Fire(c, old(Model()), Exception(e))).s
      decreases Work(Model()), |env.w.script|, 8
    {
      hide Safe; hide Valid; hide OutboundQueue.Valid; hide OutboundQueue.Queue;
      hide Spec.Fire; hide Spec.Close; hide Work;
      Fire(Exception(e));
      var _ := Close();
    }

    method ReadReady()
      requires Ready() && c.mode != Completion && !log.reading && !closed
      modifies fixed, out.Repr
      ensures Advanced() && Model() == Spec.ReadReady(c, old(Model()))
      decreases Work(Model()), |env.w.script|, 10
    {
      hide Safe; hide Valid; hide OutboundQueue.Valid; hide OutboundQueue.Queue;
      hide Spec.ReadLoop; hide Spec.Fire; hide Work;
      if !c.hasAllocator || !c.hasChannel { return; }
      var read, failed := RunReadLoop();
      if failed { return; }
      if read { Fire(ReadComplete); }
    }

    /** One batch of the outer loop: received, handed on, and the slots empty again. */
    method ReadBatch(limit: int, any: bool, ghost got: Received)
      returns (read: bool, n: nat, drained: bool, error: Option<Error>)
      requires Ready() && c.mode != Completion && c.hasChannel && !reading && limit >= 1
      requires got == W.ReceiveInbound(c.linux, env.w, c.readBufferSize, limit)
      modifies fixed, out.Repr
      ensures Advanced() && n == |got.messages| && drained == got.drained && error == got.error
      ensures var s := SetReading(old(Model()).(w := got.w), true);
              var r := Spec.Dispatch(c, s, got.messages, any);
              Model() == SetReading(r.0, false) && read == r.1
      decreases Work(Model()), |env.w.script|, 4
    {
      hide Safe; hide Valid; hide OutboundQueue.Valid; hide OutboundQueue.Queue;
      hide Spec.Dispatch; hide W.ReceiveInbound; hide SetReading; hide Pending; hide Refs; hide SlotsEmpty; hide Work;
      ReadingWork(Model().(w := got.w), true);
      ReceivedWork(Model(), got.w);
      var messages;
      messages, n, drained, error := Receive(limit, got);
      read := Dispatch(messages, got.messages, n, any);
      EndDispatch();
    }

    /** The dispatch of a batch is over. */
    method EndDispatch()
      requires Ready() && SlotsEmpty()
      modifies this`reading, this`log
      ensures Ready() && !reading && Model() == SetReading(old(Model()), false) && out.Repr == old(out.Repr)
    {
      hide Safe; hide OutboundQueue.Valid; hide OutboundQueue.Queue; hide SetReading;
      SafeReading(c, Model(), false);
      reading, log := false, SetReading(Model(), false).log;
      Refilled();
    }

    static lemma ReadingWork(s: State, on: bool)
      ensures Work(SetReading(s, on)) == Work(s) && SetReading(s, on).w == s.w && SetReading(s, on).log.reading == on
    {
    }

    static lemma ReceivedWork(s: State, w: World)
      ensures w.script == s.w.script ==> Work(s.(w := w)) == Work(s)
    {
    }

    /** The outer loop of `readReady` */
    method RunReadLoop() returns (read: bool, failed: bool)
      requires Ready() && c.mode != Completion && c.hasChannel && !reading
      modifies fixed, out.Repr
      ensures Advanced()
      ensures var n := if c.maxMessages <= 0 then 1 else c.maxMessages;
              (Model(), read, failed) == Spec.ReadLoop(c, old(Model()), n, false)
      decreases Work(Model()), |env.w.script|, 9
    {
      hide Safe; hide Valid; hide OutboundQueue.Valid; hide OutboundQueue.Queue;
      hide Spec.Dispatch; hide Spec.Fire; hide Spec.Close; hide W.ReceiveInbound; hide SetReading; hide Work;
      hide Spec.ReadLoop;
      ghost var s0 := Model();
      read := false;
      var maxMessages := c.maxMessages;
      if maxMessages <= 0 { maxMessages := 1; }
      var remaining := maxMessages;
      while remaining > 0 && !closed
        invariant Advanced()
        invariant Work(Model()) <= Work(s0) && |env.w.script| <= |s0.w.script|
        invariant Spec.ReadLoop(c, s0, maxMessages, false) == Spec.ReadLoop(c, Model(), remaining, read)
        decreases remaining
      {
        ghost var s := Model();
        ReadLoopIs(c, s, remaining, read);
        var n, drained, error;
        read, n, drained, error := ReadBatch(remaining, read, W.ReceiveInbound(c.linux, s.w, c.readBufferSize, remaining));
        remaining := remaining - n;
        if error.Some? {
          Fail(error.value);
          return read, true;
        }
        if drained || n == 0 { return read, false; }
      }
      ReadLoopIs(c, Model(), remaining, read);
      failed := false;
    }

    static lemma ReadLoopIs(c: Config, s: State, remaining: int, any: bool)
      requires c.hasChannel
      ensures Spec.ReadLoop(c, s, remaining, any) ==
              if remaining <= 0 || s.closed then (s, any, false) else
                var got := W.ReceiveInbound(c.linux, s.w, c.readBufferSize, remaining);
                var (s1, any1) := Spec.Dispatch(c, SetReading(s.(w := got.w), true), got.messages, any);
                var s2 := SetReading(s1, false);
                if got.error.Some? then (Spec.Close(c, Spec.Fire(c, s2, Exception(got.error.value))).s, any1, true)
                else if got.drained || got.messages == [] then (s2, any1, false)
                else Spec.ReadLoop(c, s2, remaining - |got.messages|, any1)
      ensures remaining > 0 && !s.closed ==>
                var got := W.ReceiveInbound(c.linux, s.w, c.readBufferSize, remaining);
                var s1 := Spec.Dispatch(c, SetReading(s.(w := got.w), true), got.messages, any).0;
                Work(SetReading(s1, false)) <= Work(s) && |SetReading(s1, false).w.script| <= |s.w.script|
    {
      hide W.ReceiveInbound; hide Spec.Dispatch; hide Spec.Close; hide Spec.Fire;
    }

    // ---- completion mode ----

    method SubmitWriteCompletion() returns (error: Option<Error>)
      requires Ready() && c.mode == Completion
      modifies this, env
      ensures Advanced() && Outcome(Model(), error) == Spec.SubmitWrite(c, old(Model()))
    {
      hide Safe; hide Valid; hide OutboundQueue.Valid; hide OutboundQueue.Queue;
      hide ToSocketAddress; hide Spec.SubmitWrite;
      SafeSubmitWrite(c, Model());
      SubmitWriteIs(c, Model());
      if closed || writePending || out.outHead == null { return None; }
      out.HeadIs();
      var d := out.outHead.datagram.value;
      var addr := ToSocketAddress(c.ifaces, d.addr);
      if addr.Failure? { return Some(addr.error); }
      error := OfferWrite(d, addr.value);
    }

    static lemma SubmitWriteIs(c: Config, s: State)
      ensures Spec.SubmitWrite(c, s) ==
              if s.closed || s.writePending || s.queue == [] then Outcome(s, None)
              else
                var to := ToSocketAddress(c.ifaces, s.queue[0].addr);
                if to.Failure? then Outcome(s, Some(to.error))
                else
                  var s1 := s.(w := W.SkipAnswer(s.w));
                  if NextAnswer(s.w) == Accepted then Outcome(WriteSubmitted(s1, to.value), None)
                  else Outcome(s1, Some(ErrPoller))
    {
    }

    /** The head is submitted; the flag is up before the poller answers, and down again if it refuses. */
    method OfferWrite(d: Datagram, to: SocketAddress) returns (error: Option<Error>)
      requires Valid() && !writePending && Model().queue != [] && d == Model().queue[0]
      modifies this, env
      ensures Valid() && Confined()
      ensures var s1 := old(Model()).(w := W.SkipAnswer(old(env.w)));
              if NextAnswer(old(env.w)) == Accepted then Model() == WriteSubmitted(s1, to) && error == None
              else Model() == s1 && error == Some(ErrPoller)
    {
      hide Safe; hide Valid; hide OutboundQueue.Valid; hide OutboundQueue.Queue;
      hide W.SkipAnswer; hide WriteSubmitted;
      ghost var s1 := Model().(w := W.SkipAnswer(env.w));
      var answer := SubmitPayload(d, to);
      if answer == Accepted {
        RecordSubmit(s1, to);
        return None;
      }
      ClearWrite();
      return Some(ErrPoller);
    }

    method SubmitPayload(d: Datagram, to: SocketAddress) returns (answer: Answer)
      requires Valid() && !writePending && Model().queue != [] && d == Model().queue[0]
      modifies this`writePending, env
      ensures Valid() && Confined() && answer == NextAnswer(old(env.w)) && log == old(log)
      ensures var s1 := old(Model()).(w := W.SkipAnswer(old(env.w)));
              Model() == if answer == Accepted then WriteSubmitted(s1, to).(log := s1.log)
                         else s1.(writePending := true)
    {
      hide Safe; hide Valid; hide OutboundQueue.Valid; hide OutboundQueue.Queue;
      hide W.SkipAnswer;
      writePending := true;
      answer := env.SubmitWrite(d.payload, to);
      Same();
    }

    method ClearWrite()
      requires Valid()
      modifies this`writePending
      ensures Valid() && Confined() && Model() == old(Model()).(writePending := false)
    {
      hide Safe; hide Valid; hide OutboundQueue.Valid; hide OutboundQueue.Queue;
      writePending := false;
      Same();
    }

    ghost method RecordSubmit(s: State, to: SocketAddress)
      requires Valid() && s.queue != [] && log == s.log && Model() == WriteSubmitted(s, to).(log := s.log)
      modifies this`log
      ensures Valid() && Confined() && Model() == WriteSubmitted(s, to)
    {
      hide Safe; hide Valid; hide OutboundQueue.Valid; hide OutboundQueue.Queue;
      log := WriteSubmitted(s, to).log;
      Same();
    }

    method SubmitReadCompletion() returns (error: Option<Error>)
      requires Ready() && !closed && c.mode == Completion
      modifies this, env
      ensures Advanced() && Outcome(Model(), error) == Spec.SubmitRead(c, old(Model()))
    {
      hide Safe; hide Valid; hide OutboundQueue.Valid; hide OutboundQueue.Queue;
      hide W.AcquireBuf; hide Conserved; hide Core; hide Spec.OfferRead;
      SafeFacts(c, Model());
      SafeSubmitRead(c, Model());
      if closed || readPending || !c.hasAllocator { return None; }
      AcquireHand(env.w);
      AcquireRefs(env.w);
      var buf := AcquireBuf();
      if buf.None? { return Some(ErrAllocator); }
      error := OfferRead(buf.value);
    }

    method AcquireBuf() returns (buf: Option<nat>)
      requires Valid()
      modifies env
      ensures Valid() && Confined() && buf == W.AcquireBuf(old(env.w)).1
      ensures Model() == old(Model()).(w := W.AcquireBuf(old(env.w)).0)
    {
      hide Safe; hide Valid; hide OutboundQueue.Valid; hide OutboundQueue.Queue;
      hide W.AcquireBuf;
      buf := env.AcquireBuf();
      Same();
    }

    /** The read is submitted, and the reference it was submitted with given up. */
    method OfferRead(id: nat) returns (error: Option<Error>)
      requires Valid() && !readPending && BufRef(id) in env.w.inHand && env.w.inHand <= env.w.refs
      modifies this`readPending, env
      ensures Valid() && Confined() && Outcome(Model(), error) == Spec.OfferRead(old(Model()), id)
    {
      hide Safe; hide Valid; hide OutboundQueue.Valid; hide OutboundQueue.Queue;
      hide LoseRef; hide ReadSubmitted; hide W.SkipAnswer; hide Spec.OfferRead;
      OfferReadIs(Model(), id);
      var answer := SubmitRead(id);
      ReleaseBuf(id);
      if answer == Accepted { return None; }
      ClearRead();
      return Some(ErrPoller);
    }

    static lemma OfferReadIs(s: State, id: nat)
      requires !s.readPending
      ensures var s1 := s.(w := W.SkipAnswer(s.w));
              Spec.OfferRead(s, id) ==
                if NextAnswer(s.w) == Accepted then Outcome(LoseRef(ReadSubmitted(s1, id), id), None)
                else Outcome(LoseRef(s1.(readPending := true), id).(readPending := false), Some(ErrPoller))
    {
    }

    /** The flag is up before the poller answers. */
    method SubmitRead(id: nat) returns (answer: Answer)
      requires Valid() && !readPending && BufRef(id) in env.w.inHand && env.w.inHand <= env.w.refs
      modifies this`readPending, env
      ensures Valid() && Confined() && answer == NextAnswer(old(env.w))
      ensures BufRef(id) in env.w.inHand && env.w.inHand <= env.w.refs
      ensures var s1 := old(Model()).(w := W.SkipAnswer(old(env.w)));
              Model() == if answer == Accepted then ReadSubmitted(s1, id) else s1.(readPending := true)
    {
      hide Safe; hide Valid; hide OutboundQueue.Valid; hide OutboundQueue.Queue;
      hide W.SkipAnswer;
      SkipFields(env.w);
      readPending := true;
      answer := env.SubmitRead(id);
      Same();
    }

    method ClearRead()
      requires Valid()
      modifies this`readPending
      ensures Valid() && Confined() && Model() == old(Model()).(readPending := false)
    {
      hide Safe; hide Valid; hide OutboundQueue.Valid; hide OutboundQueue.Queue;
      readPending := false;
      Same();
    }

    static lemma SkipFields(w: World)
      ensures W.SkipAnswer(w).refs == w.refs && W.SkipAnswer(w).inHand == w.inHand
    {
    }

    /** The event's buffer is released. */
    method ReleaseBuf(id: nat)
      requires Valid() && BufRef(id) in env.w.inHand && env.w.inHand <= env.w.refs
      modifies env
      ensures Valid() && Confined() && Model() == LoseRef(old(Model()), id)
    {
      hide Safe; hide Valid; hide OutboundQueue.Valid; hide OutboundQueue.Queue;
      hide W.Discard;
      assert BufRef(id) in env.w.refs;
      env.Discard(id);
      Same();
    }

    /** A report about a write has arrived with the poller's reference. */
    method WriteReport() returns (id: nat)
      requires Ready() && env.w.pendingWrites != []
      modifies this`writePending, env
      ensures Valid() && Confined() && id == old(env.w.pendingWrites[0].payload.id)
      ensures Model() == WriteReturned(old(Model()))
    {
      hide Safe; hide Valid; hide OutboundQueue.Valid; hide OutboundQueue.Queue;
      id := env.TakeWrite();
      if !closed { writePending := false; }
      Same();
    }

    method HandleWriteCompletion(error: Option<Error>)
      requires Ready() && c.mode == Completion && env.w.pendingWrites != []
      modifies fixed, out.Repr
      ensures Advanced() && Model() == Spec.HandleWriteCompletion(c, old(Model()), error)
    {
      hide Safe; hide Valid; hide OutboundQueue.Valid; hide OutboundQueue.Queue;
      hide Spec.Fire; hide Spec.Close; hide Spec.Dequeue; hide Spec.SubmitWrite; hide Conserved;
      hide Popped; hide Settled; hide LoseRef; hide WriteReturned; hide Core;
      ghost var s := Model();
      SafeReturn(c, s);
      SafeWriteReturn(c, s);
      TakeWriteReport();
      if closed { return; }
      if error.Some? {
        Fail(error.value);
        return;
      }
      SafeComplete(c, s);
      WriteDone();
    }

    /** The report's buffer is released at once. */
    method TakeWriteReport()
      requires Ready() && env.w.pendingWrites != []
      modifies this`writePending, env
      ensures Valid() && Confined()
      ensures var s := old(Model());
              Model() == LoseRef(WriteReturned(s), s.w.pendingWrites[0].payload.id)
    {
      hide Safe; hide Valid; hide OutboundQueue.Valid; hide OutboundQueue.Queue;
      hide WriteReturned; hide LoseRef; hide Conserved;
      SafeReturn(c, Model());
      var id := WriteReport();
      ReleaseBuf(id);
    }

    /** The entry of a completed write leaves the queue, and the next one is submitted. */
    method WriteDone()
      requires Valid() && c.mode == Completion && Conserved(Model())
      requires Model().queue != [] && Safe(c, Settled(c, Popped(Model())))
      modifies fixed, out.Repr
      ensures Advanced()
      ensures var s := Spec.Dequeue(c, old(Model()));
              var o := Spec.SubmitWrite(c, s);
              Model() == if s.queue == [] then Spec.Fire(c, s, FlushComplete)
                         else if o.error.None? then o.s
                         else Spec.Close(c, Spec.Fire(c, o.s, Exception(o.error.value))).s
    {
      hide Safe; hide Valid; hide OutboundQueue.Valid; hide OutboundQueue.Queue;
      hide Spec.Fire; hide Spec.Close; hide Spec.Dequeue; hide Spec.SubmitWrite; hide Conserved; hide Popped; hide Settled;
      Dequeue();
      if out.outHead == null {
        Fire(FlushComplete);
        return;
      }
      var failure := SubmitWriteCompletion();
      if failure.Some? { Fail(failure.value); }
    }

    method ReadReport() returns (id: nat)
      requires Ready() && env.w.pendingReads != []
      modifies this`readPending, env
      ensures Advanced() && id == old(env.w.pendingReads[0]) && Model() == ReadReturned(old(Model()))
    {
      hide Safe; hide Valid; hide OutboundQueue.Valid; hide OutboundQueue.Queue;
      hide LoseRef; hide Core; hide Conserved;
      SafeReadReturned(c, Model());
      id := env.TakeRead();
      if !closed { readPending := false; }
      Same();
    }

    method HandleReadCompletion(data: seq<Byte>, from: SocketAddress, error: Option<Error>)
      requires Ready() && c.mode == Completion && c.hasChannel && env.w.pendingReads != []
      modifies fixed, out.Repr
      ensures Advanced() && Model() == Spec.HandleReadCompletion(c, old(Model()), data, from, error)
    {
      hide Safe; hide Valid; hide OutboundQueue.Valid; hide OutboundQueue.Queue;
      hide Spec.Fire; hide Spec.Close; hide Spec.FireChannelRead; hide Spec.SubmitRead;
      hide Conserved; hide Core; hide LoseRef; hide ReadReturned;
      ReturnedHand(Model());
      SafeReadReturned(c, Model());
      var id := ReadReport();
      if closed {
        ReleaseBuf(id);
      } else if error.Some? {
        ReleaseBuf(id);
        Fail(error.value);
      } else {
        TakeData(id, data, from);
        ReadAgain();
      }
    }

    /** The data of a successful read, if there are any, go to the pipeline. */
    method TakeData(id: nat, data: seq<Byte>, from: SocketAddress)
      requires Ready() && c.hasChannel && BufRef(id) in env.w.inHand && env.w.inHand <= env.w.refs
      requires Safe(c, LoseRef(Model(), id))
      modifies fixed, out.Repr
      ensures Advanced()
      ensures var s := old(Model());
              Model() == if |data| > 0 && from.Valid()
                         then Spec.Fire(c, Spec.FireChannelRead(c, s, Inbound(Buf(id, data), from)), ReadComplete)
                         else LoseRef(s, id)
    {
      hide Safe; hide Valid; hide OutboundQueue.Valid; hide OutboundQueue.Queue;
      hide Spec.Fire; hide Spec.FireChannelRead; hide LoseRef;
      if |data| > 0 && from.Valid() {
        DeliverRead(Inbound(Buf(id, data), from));
      } else {
        ReleaseBuf(id);
      }
    }

    method DeliverRead(m: Inbound)
      requires Ready() && c.hasChannel && BufRef(m.payload.id) in env.w.inHand
      modifies fixed, out.Repr
      ensures Advanced()
      ensures Model() == Spec.Fire(c, Spec.FireChannelRead(c, old(Model()), m), ReadComplete)
    {
      hide Safe; hide Valid; hide OutboundQueue.Valid; hide OutboundQueue.Queue;
      hide Spec.Fire; hide Spec.FireChannelRead;
      FireChannelRead(m);
      Fire(ReadComplete);
    }

    /** The next read is submitted, if the endpoint is open and reads on its own. */
    method ReadAgain()
      requires Ready() && c.mode == Completion
      modifies fixed, out.Repr
      ensures Advanced()
      ensures var s := old(Model());
              var o := Spec.SubmitRead(c, s);
              Model() == if s.closed || !s.w.autoRead then s
                         else if o.error.None? then o.s
                         else Spec.Close(c, Spec.Fire(c, o.s, Exception(o.error.value))).s
    {
      hide Safe; hide Valid; hide OutboundQueue.Valid; hide OutboundQueue.Queue;
      hide Spec.Fire; hide Spec.Close; hide Spec.SubmitRead;
      if !closed && env.w.autoRead {
        var failure := SubmitReadCompletion();
        if failure.Some? { Fail(failure.value); }
      }
    }

    // ---- events from the poller ----

    method HandleEvent(ev: PollEvent)
      requires Ready() && Deliverable(c, Model(), ev) && !reading
      modifies fixed, out.Repr
      ensures Advanced() && Model() == Spec.HandleEvent(c, old(Model()), ev)
    {
      hide Safe; hide Valid; hide OutboundQueue.Valid; hide OutboundQueue.Queue;
      hide Spec.Close; hide Spec.HandleWriteCompletion; hide Spec.HandleReadCompletion;
      match ev
      case Ready(_, _, _, _) => HandleReadiness(ev);
      case CloseDone => var _ := Close();
      case WriteDone(error) => HandleWriteCompletion(error);
      case ReadDone(data, from, error) => HandleReadCompletion(data, from, error);
    }

    method HandleReadiness(ev: PollEvent)
      requires Ready() && ev.Ready? && c.mode != Completion && !reading
      modifies fixed, out.Repr
      ensures Advanced() && Model() == Spec.HandleEvent(c, old(Model()), ev)
    {
      hide Safe; hide Valid; hide OutboundQueue.Valid; hide OutboundQueue.Queue;
      hide Spec.Close; hide Spec.Fire; hide Spec.ReadReady; hide Spec.FlushOutbound; hide Conserved; hide Core; hide Whole;
      if closed { return; }
      if ev.error.Some? {
        Fail(ev.error.value);
        return;
      }
      if ev.hangup {
        var _ := Close();
        return;
      }
      SafeReadReady(c, Model());
      if ev.canRead && (!c.hasChannel || env.w.autoRead) { ReadReady(); }
      if ev.canWrite {
        var error := FlushOutbound();
        if error.Some? { Fail(error.value); }
      }
    }

    /** One step of a life: a call, a report from the poller, or new answers from outside. */
    method Take(step: R.Step)
      requires Ready() && !reading
      modifies fixed, out.Repr
      ensures Advanced() && Model() == R.Next(c, old(Model()), step)
    {
      hide Safe; hide Valid; hide OutboundQueue.Valid; hide OutboundQueue.Queue;
      hide Spec.React; hide Spec.HandleEvent;
      match step
      case Call(action) => React(action);
      case Report(event) =>
        var due := match event
          case Ready(_, _, _, _) => c.mode != Completion
          case WriteDone(_) => c.mode == Completion && env.w.pendingWrites != []
          case ReadDone(_, _, _) => c.mode == Completion && c.hasChannel && env.w.pendingReads != []
          case CloseDone => c.mode == Completion;
        if due { HandleEvent(event); }
      case Provide(w) => Provide(w);
    }

    method Provide(w: World)
      requires Ready()
      modifies env
      ensures Advanced()
      ensures Model() == if SameHoldings(w, old(env.w)) then old(Model()).(w := w) else old(Model())
    {
      hide Safe; hide Valid; hide OutboundQueue.Valid; hide OutboundQueue.Queue;
      hide SameHoldings;
      if SameHoldings(w, env.w) {
        SafeOutside(c, Model(), w);
        Replace(w);
      }
    }

    method Replace(w: World)
      requires Valid() && Safe(c, Model().(w := w))
      modifies env
      ensures Advanced() && Model() == old(Model()).(w := w)
    {
      hide Safe; hide Valid; hide OutboundQueue.Valid; hide OutboundQueue.Queue;
      env.Provide(w);
      Same();
    }
  }

  /** A new endpoint, driven through any life, goes through the states of that run. */
  method Drive(c: Config, env: Env, steps: seq<R.Step>) returns (e: Endpoint)
    requires env.w == InitialWorld()
    modifies env
    ensures e.Ready() && e.Model() == R.Run(c, Initial(), steps)
  {
    hide R.Next; hide Safe; hide Endpoint.Valid; hide OutboundQueue.Valid; hide OutboundQueue.Queue; hide R.Run;
    e := new Endpoint(c, env);
    for i := 0 to |steps|
      invariant e.Ready() && !e.reading && e.c == c && fresh(e.fixed - {env}) && fresh(e.out.Repr)
      invariant R.Run(c, Initial(), steps) == R.Run(c, e.Model(), steps[i..])
    {
      RunIs(c, e.Model(), steps[i..]);
      assert steps[i..][1..] == steps[i + 1..];
      e.Take(steps[i]);
    }
    RunIs(c, e.Model(), []);
  }

  lemma RunIs(c: Config, s: State, steps: seq<R.Step>)
    ensures R.Run(c, s, steps) == if steps == [] then s else R.Run(c, R.Next(c, s, steps[0]), steps[1..])
  {
  }
}
