/**
 * The handlers of codec.go. Each works on a list of messages it shares between calls; every message of the list is
 * passed on or released, and no message both.
 */
module Codec {
  import opened Wrappers
  import opened Addresses
  import opened World
  import opened DatagramPool
  import opened EndpointState
  import EndpointSpec

  /** A message on its way through the pipeline: a buffer, or anything else with the references it owns. */
  datatype Item = BufItem(buf: Buf) | OtherItem(tag: nat, owned: seq<Resource>)

  function ItemOwned(x: Item): seq<Resource> {
    match x
    case BufItem(b) => [BufRef(b.id)]
    case OtherItem(_, owned) => owned
  }

  function OwnedBy(xs: seq<Item>): seq<Resource>
    decreases |xs|
  {
    if xs == [] then [] else ItemOwned(xs[0]) + OwnedBy(xs[1..])
  }

  lemma {:induction false} OwnedByAppend(xs: seq<Item>, ys: seq<Item>)
    ensures OwnedBy(xs + ys) == OwnedBy(xs) + OwnedBy(ys)
    decreases |xs|
  {
    if xs == [] {
      assert xs + ys == ys;
    } else {
      assert (xs + ys)[1..] == xs[1..] + ys;
      OwnedByAppend(xs[1..], ys);
    }
  }

  predicate Holds(h: multiset<Resource>, rs: seq<Resource>) { multiset(rs) <= h }

  function Without(h: multiset<Resource>, rs: seq<Resource>): multiset<Resource> { h - multiset(rs) }

  /** Giving up two lists one after the other is giving up both. */
  lemma Peel(h: multiset<Resource>, xs: seq<Resource>, ys: seq<Resource>)
    requires Holds(h, xs + ys)
    ensures Holds(h, xs) && Holds(Without(h, xs), ys) && Without(Without(h, xs), ys) == Without(h, xs + ys)
  {
    assert multiset(xs + ys) == multiset(xs) + multiset(ys);
  }

  lemma NothingLess(h: multiset<Resource>)
    ensures Holds(h, []) && Without(h, []) == h
  {
  }

  lemma Assoc(xs: seq<Resource>, ys: seq<Resource>, zs: seq<Resource>)
    ensures (xs + ys) + zs == xs + (ys + zs)
  {
  }

  /** What goes to the next handler towards the socket. */
  datatype Outgoing = OutDatagram(payload: Buf, addr: Address) | Wrapped(message: Item, addr: Address) | Plain(message: Item)

  /** What goes to the next handler towards the application. */
  datatype Incoming = Addressed(message: Item, at: HeapAddress) | AsIs(whole: InMessage)

  /** The neighbours of a handler. A write they refuse leaves the message with the caller. */
  class Context {
    var held: multiset<Resource>    // references the handler answers for
    var released: seq<Resource>
    var written: seq<Outgoing>
    var forwarded: seq<Incoming>
    var failures: seq<Error>
    var answers: seq<Option<Error>> // to writes; an exhausted list means success

    constructor (held: multiset<Resource>, answers: seq<Option<Error>>)
      ensures this.held == held && this.answers == answers
      ensures released == [] && written == [] && forwarded == [] && failures == []
    {
      this.held, this.answers := held, answers;
      released, written, forwarded, failures := [], [], [], [];
    }

    /** `releaseMessage` */
    method Release(rs: seq<Resource>)
      requires Holds(held, rs)
      modifies this`held, this`released
      ensures held == Without(old(held), rs) && released == old(released) + rs
    {
      held := Without(held, rs);
      released := released + rs;
    }

    /** The user's encoder or decoder has produced messages. */
    method Gain(rs: seq<Resource>)
      modifies this`held
      ensures held == old(held) + multiset(rs)
    {
      held := held + multiset(rs);
    }

    method Write(m: Outgoing, rs: seq<Resource>) returns (error: Option<Error>)
      requires Holds(held, rs)
      modifies this`held, this`written, this`answers
      ensures error == FirstAnswer(old(answers)) && answers == Later(old(answers))
      ensures error.None? ==> held == Without(old(held), rs) && written == old(written) + [m]
      ensures error.Some? ==> held == old(held) && written == old(written)
    {
      error := FirstAnswer(answers);
      answers := Later(answers);
      if error.None? {
        held := Without(held, rs);
        written := written + [m];
      }
    }

    method FireChannelRead(m: Incoming, rs: seq<Resource>)
      requires Holds(held, rs)
      modifies this`held, this`forwarded
      ensures held == Without(old(held), rs) && forwarded == old(forwarded) + [m]
    {
      held := Without(held, rs);
      forwarded := forwarded + [m];
    }

    method FireExceptionCaught(e: Error)
      modifies this`failures
      ensures failures == old(failures) + [e]
    {
      failures := failures + [e];
    }
  }

  function FirstAnswer(answers: seq<Option<Error>>): Option<Error> { if answers == [] then None else answers[0] }

  function Later(answers: seq<Option<Error>>): seq<Option<Error>> { if answers == [] then [] else answers[1..] }

  /** Every message of a list is released. */
  method ReleaseItems(ctx: Context, xs: seq<Item>)
    requires Holds(ctx.held, OwnedBy(xs))
    modifies ctx`held, ctx`released
    ensures ctx.released == old(ctx.released) + OwnedBy(xs) && ctx.held == Without(old(ctx.held), OwnedBy(xs))
  {
    hide Holds; hide Without; hide ItemOwned;
    ghost var h0, r0 := ctx.held, ctx.released;
    ghost var done: seq<Resource> := [];
    NothingLess(h0);
    assert xs[0..] == xs;
    for j := 0 to |xs|
      invariant done + OwnedBy(xs[j..]) == OwnedBy(xs)
      invariant ctx.released == r0 + done && ctx.held == Without(h0, done)
    {
      assert xs[j..][1..] == xs[j + 1..];
      ghost var x := ItemOwned(xs[j]);
      Assoc(done, x, OwnedBy(xs[j + 1..]));
      PeelMiddle(h0, done, x, OwnedBy(xs[j + 1..]));
      ctx.Release(ItemOwned(xs[j]));
      Assoc(r0, done, x);
      done := done + x;
    }
    assert xs[|xs|..] == [] && done + OwnedBy([]) == done;
  }

  // ---- the encoder ----

  /** How an encoded list is sent: the length of the accepted prefix, and why the next message was not. */
  function SendList(xs: seq<Item>, answers: seq<Option<Error>>): (r: (nat, Option<Error>))
    ensures r.0 <= |xs| && (r.0 == |xs| <==> r.1.None?)
    ensures forall i :: 0 <= i < r.0 ==> xs[i].BufItem?
    decreases |xs|
  {
    if xs == [] then (0, None)
    else if !xs[0].BufItem? then (0, Some(ErrInvalidDatagram))
    else if FirstAnswer(answers).Some? then (0, FirstAnswer(answers))
    else var r := SendList(xs[1..], Later(answers)); (r.0 + 1, r.1)
  }

  function Packets(xs: seq<Item>, addr: Address): (r: seq<Outgoing>)
    requires forall i :: 0 <= i < |xs| ==> xs[i].BufItem?
    ensures |r| == |xs| && forall i :: 0 <= i < |xs| ==> r[i].OutDatagram? && r[i].payload == xs[i].buf && r[i].addr == addr
  {
    seq(|xs|, i requires 0 <= i < |xs| => OutDatagram(xs[i].buf, addr))
  }

  /** The user's part: which messages it wants, and what it makes of them. */
  datatype Encoder = Encoder(accept: Item -> bool, encode: Item -> (seq<Item>, Option<Error>))

  datatype OutMessage = AddressedOut(message: Item, addr: Address) | OtherOut(message: Item)

  class MessageToDatagramEncoder {
    const encoder: Option<Encoder>
    var out: seq<Item>

    constructor (encoder: Option<Encoder>)
      ensures this.encoder == encoder && out == []
    {
      this.encoder := encoder;
      out := [];
    }

    /** The list from `i` on is released, and the list is empty again. */
    method ReleaseRest(ctx: Context, i: nat)
      requires i <= |out| && Holds(ctx.held, OwnedBy(out[i..]))
      modifies this, ctx`held, ctx`released
      ensures ctx.released == old(ctx.released) + OwnedBy(old(out)[i..])
      ensures ctx.held == Without(old(ctx.held), OwnedBy(old(out)[i..])) && out == []
    {
      hide Holds; hide Without; hide OwnedBy;
      ReleaseItems(ctx, out[i..]);
      out := [];
    }

    /** The loop of `Write`: datagrams go out in order until one is refused, and the rest is released. */
    method SendAll(ctx: Context, addr: Address) returns (error: Option<Error>)
      requires Holds(ctx.held, OwnedBy(out))
      modifies this, ctx`held, ctx`released, ctx`written, ctx`answers
      ensures var (n, e) := SendList(old(out), old(ctx.answers));
              && error == e
              && ctx.written == old(ctx.written) + Packets(old(out)[..n], addr)
              && ctx.released == old(ctx.released) + OwnedBy(old(out)[n..])
      ensures ctx.held == Without(old(ctx.held), OwnedBy(old(out))) && out == []
    {
      hide Holds; hide Without; hide OwnedBy; hide SendList; hide Packets;
      ghost var (n, e) := SendList(out, ctx.answers);
      ghost var h0, w0 := ctx.held, ctx.written;
      StartList(h0, out, addr);
      for i := 0 to |out|
        invariant out == old(out) && i <= n && ctx.released == old(ctx.released)
        invariant SendList(out[i..], ctx.answers) == (n - i, e)
        invariant ctx.written == w0 + Packets(out[..i], addr)
        invariant ctx.held == Without(h0, OwnedBy(out[..i]))
      {
        SplitHeld(h0, out, i);
        SendListIs(out, i, ctx.answers);
        if !out[i].BufItem? {
          ReleaseRest(ctx, i);
          return Some(ErrInvalidDatagram);
        }
        var payload := out[i].buf;
        error := ctx.Write(OutDatagram(payload, addr), [BufRef(payload.id)]);
        if error.Some? {
          ReleaseRest(ctx, i);
          return;
        }
        PacketsNext(w0, out, i, addr);
      }
      EndList(out, ctx.answers);
      out := [];
      return None;
    }

    /** `Write` */
    method Write(ctx: Context, msg: OutMessage) returns (error: Option<Error>)
      requires Holds(ctx.held, ItemOwned(msg.message))
      modifies this, ctx
      ensures ctx.forwarded == old(ctx.forwarded) && ctx.failures == old(ctx.failures)
      // Not addressed: passed on, and the answer is the neighbour's.
      ensures msg.OtherOut? ==>
                && error == FirstAnswer(old(ctx.answers)) && ctx.released == old(ctx.released)
                && ctx.written == old(ctx.written) + (if error.None? then [Plain(msg.message)] else [])
                && ctx.held == (if error.None? then Without(old(ctx.held), ItemOwned(msg.message)) else old(ctx.held))
      // Addressed, but there is no encoder: released.
      ensures msg.AddressedOut? && encoder.None? ==>
                && error == Some(ErrInvalidEncoder) && ctx.written == old(ctx.written)
                && ctx.released == old(ctx.released) + ItemOwned(msg.message)
      // Not wanted by the encoder: a buffer becomes a datagram, and is released if that is refused.
      ensures msg.AddressedOut? && encoder.Some? && !encoder.value.accept(msg.message) ==>
                && error == FirstAnswer(old(ctx.answers))
                && ctx.written == old(ctx.written) +
                     (if error.Some? then []
                      else if msg.message.BufItem? then [OutDatagram(msg.message.buf, msg.addr)]
                      else [Wrapped(msg.message, msg.addr)])
                && ctx.released == old(ctx.released) +
                     (if error.Some? && msg.message.BufItem? then ItemOwned(msg.message) else [])
                && ctx.held == (if error.None? || msg.message.BufItem? then Without(old(ctx.held), ItemOwned(msg.message))
                                else old(ctx.held))
      // Encoded: a prefix of the list is sent and exactly the rest released, after the message itself.
      ensures msg.AddressedOut? && encoder.Some? && encoder.value.accept(msg.message) ==>
                var (xs, failed) := encoder.value.encode(msg.message);
                var (n, e) := SendList(xs, old(ctx.answers));
                var k := if failed.Some? then 0 else n;
                && error == (if failed.Some? then failed else e)
                && ctx.written == old(ctx.written) + Packets(xs[..k], msg.addr)
                && ctx.released == old(ctx.released) + ItemOwned(msg.message) + OwnedBy(xs[k..])
                && ctx.held == Without(old(ctx.held), ItemOwned(msg.message)) && out == []
    {
      hide Holds; hide Without; hide OwnedBy; hide SendList; hide ItemOwned;
      if msg.OtherOut? {
        error := ctx.Write(Plain(msg.message), ItemOwned(msg.message));
        return;
      }
      if encoder.None? {
        ctx.Release(ItemOwned(msg.message));
        return Some(ErrInvalidEncoder);
      }
      if !encoder.value.accept(msg.message) {
        if !msg.message.BufItem? {
          error := ctx.Write(Wrapped(msg.message, msg.addr), ItemOwned(msg.message));
          return;
        }
        error := ctx.Write(OutDatagram(msg.message.buf, msg.addr), ItemOwned(msg.message));
        if error.Some? { ctx.Release(ItemOwned(msg.message)); }
        return;
      }
      out := [];
      var (xs, failed) := encoder.value.encode(msg.message);
      error := SendEncoded(ctx, msg.message, msg.addr, xs, failed);
    }

    /** What `Write` does once the message has been encoded. */
    method SendEncoded(ctx: Context, message: Item, addr: Address, xs: seq<Item>, failed: Option<Error>)
      returns (error: Option<Error>)
      requires Holds(ctx.held, ItemOwned(message))
      modifies this, ctx
      ensures ctx.forwarded == old(ctx.forwarded) && ctx.failures == old(ctx.failures)
      ensures var (n, e) := SendList(xs, old(ctx.answers));
              var k := if failed.Some? then 0 else n;
              && error == (if failed.Some? then failed else e)
              && ctx.written == old(ctx.written) + Packets(xs[..k], addr)
              && ctx.released == old(ctx.released) + ItemOwned(message) + OwnedBy(xs[k..])
              && ctx.held == Without(old(ctx.held), ItemOwned(message)) && out == []
    {
      hide Holds; hide Without; hide OwnedBy; hide SendList; hide ItemOwned; hide Packets;
      GainThenGive(ctx.held, ItemOwned(message), OwnedBy(xs));
      StartList(ctx.held, xs, addr);
      out := xs;
      ctx.Gain(OwnedBy(xs));
      ctx.Release(ItemOwned(message));
      if failed.Some? {
        ReleaseRest(ctx, 0);
        return failed;
      }
      error := SendAll(ctx, addr);
    }
  }

  lemma PeelMiddle(h: multiset<Resource>, done: seq<Resource>, x: seq<Resource>, rest: seq<Resource>)
    requires Holds(h, done + (x + rest))
    ensures Holds(Without(h, done), x) && Without(Without(h, done), x) == Without(h, done + x)
  {
    hide Holds; hide Without;
    Assoc(done, x, rest);
    Peel(h, done + x, rest);
    Peel(h, done, x);
  }

  /** What is still to be sent is still held. */
  lemma SplitHeld(h: multiset<Resource>, xs: seq<Item>, i: nat)
    requires i < |xs| && Holds(h, OwnedBy(xs))
    ensures var left := Without(h, OwnedBy(xs[..i]));
            && Holds(left, ItemOwned(xs[i])) && Holds(left, OwnedBy(xs[i..]))
            && Without(left, OwnedBy(xs[i..])) == Without(h, OwnedBy(xs))
            && Without(left, ItemOwned(xs[i])) == Without(h, OwnedBy(xs[..i + 1]))
  {
    hide Holds; hide Without; hide ItemOwned;
    assert xs == xs[..i] + xs[i..] && xs[..i + 1] == xs[..i] + [xs[i]] && xs[i..][1..] == xs[i + 1..];
    OwnedByAppend(xs[..i], xs[i..]);
    OwnedByAppend(xs[..i], [xs[i]]);
    OwnedOne(xs[i]);
    Peel(h, OwnedBy(xs[..i]), OwnedBy(xs[i..]));
    PeelMiddle(h, OwnedBy(xs[..i]), ItemOwned(xs[i]), OwnedBy(xs[i + 1..]));
  }

  lemma OwnedOne(x: Item)
    ensures OwnedBy([x]) == ItemOwned(x)
  {
    assert ItemOwned(x) + [] == ItemOwned(x);
  }

  lemma StartList(h: multiset<Resource>, xs: seq<Item>, addr: Address)
    ensures xs[..0] == [] && xs[0..] == xs && Packets([], addr) == [] && Without(h, OwnedBy([])) == h
  {
    NothingLess(h);
  }

  lemma EndList(xs: seq<Item>, answers: seq<Option<Error>>)
    ensures xs[..|xs|] == xs && xs[|xs|..] == [] && OwnedBy([]) == [] && SendList([], answers) == (0, None)
  {
  }

  lemma SendListIs(xs: seq<Item>, i: nat, answers: seq<Option<Error>>)
    requires i < |xs|
    ensures SendList(xs[i..], answers) ==
            if !xs[i].BufItem? then (0, Some(ErrInvalidDatagram))
            else if FirstAnswer(answers).Some? then (0, FirstAnswer(answers))
            else var r := SendList(xs[i + 1..], Later(answers)); (r.0 + 1, r.1)
  {
    assert xs[i..][1..] == xs[i + 1..];
  }

  lemma PacketsNext(before: seq<Outgoing>, xs: seq<Item>, i: nat, addr: Address)
    requires i < |xs| && forall j :: 0 <= j <= i ==> xs[j].BufItem?
    ensures before + Packets(xs[..i + 1], addr) == before + Packets(xs[..i], addr) + [OutDatagram(xs[i].buf, addr)]
  {
    assert Packets(xs[..i + 1], addr) == Packets(xs[..i], addr) + [OutDatagram(xs[i].buf, addr)];
  }

  lemma GainThenGive(h: multiset<Resource>, x: seq<Resource>, ys: seq<Resource>)
    requires Holds(h, x)
    ensures var v := Without(h + multiset(ys), x);
            Holds(h + multiset(ys), x) && Holds(v, ys) && Without(v, ys) == Without(h, x)
  {
  }

  /** The answer to the `i`-th write. */
  function AnswerAt(answers: seq<Option<Error>>, i: nat): Option<Error> {
    if i < |answers| then answers[i] else None
  }

  /** What is sent ends before the first message that is not a buffer or whose write is refused. */
  lemma {:induction false} SendListMeaning(xs: seq<Item>, answers: seq<Option<Error>>)
    ensures var (n, e) := SendList(xs, answers);
            && (forall i :: 0 <= i < n ==> xs[i].BufItem? && AnswerAt(answers, i).None?)
            && (n < |xs| && !xs[n].BufItem? ==> e == Some(ErrInvalidDatagram))
            && (n < |xs| && xs[n].BufItem? ==> e.Some? && e == AnswerAt(answers, n))
    decreases |xs|
  {
    if xs != [] && xs[0].BufItem? && FirstAnswer(answers).None? {
      SendListMeaning(xs[1..], Later(answers));
      var n := SendList(xs[1..], Later(answers)).0;
      forall i | 0 <= i < n + 1 ensures xs[i].BufItem? && AnswerAt(answers, i).None? {
        if i > 0 { assert xs[i] == xs[1..][i - 1] && AnswerAt(answers, i) == AnswerAt(Later(answers), i - 1); }
      }
      assert AnswerAt(answers, n + 1) == AnswerAt(Later(answers), n);
    }
  }

  /**
   * The encoder expects a refused write to leave the payload with it. Over an endpoint that fails: a write is refused
   * exactly if the endpoint is closed or the address invalid, and then the endpoint itself has released the payload,
   * so that the encoder's release is of a reference nobody has any more.
   */
  lemma RefusedByEndpoint(c: Config, s: State, payload: Buf, addr: Address)
    requires s.w.held[BufRef(payload.id)] == 1
    ensures var o := EndpointSpec.Write(c, s, DatagramMessage(Some(payload), addr, None));
            && (o.error.Some? <==> s.closed || !addr.Valid())
            && (o.error.Some? ==> o.s.w.held[BufRef(payload.id)] == 0)
  {
    hide EndpointSpec.Enqueue;
    var m := DatagramMessage(Some(payload), addr, None);
    assert MessageOwned(m) == [BufRef(payload.id)] + [];
    assert Owned(Datagram(payload, addr, None)) == [BufRef(payload.id)] + [];
    assert multiset([BufRef(payload.id)] + []) == multiset{BufRef(payload.id)};
  }

  // ---- the decoder ----

  /** The user's part: which datagrams it wants, and what it makes of their payload. */
  datatype Decoder = Decoder(accept: (Option<Buf>, Address) -> bool, decode: Option<Buf> -> (seq<Item>, Option<Error>))

  datatype InMessage = DatagramIn(datagram: DatagramValue) | OtherIn(tag: nat, owned: seq<Resource>)

  function PayloadOwned(d: DatagramValue): seq<Resource> {
    if d.payload.Some? then [BufRef(d.payload.value.id)] else []
  }

  function InOwned(m: InMessage): seq<Resource> {
    if m.DatagramIn? then PayloadOwned(m.datagram) else m.owned
  }

  /** A datagram as the pipeline hands it on: unpooled, or live, with its address in its envelope. */
  ghost predicate AsReceived(d: DatagramValue)
    reads d.pool, if d.pool != null then d.pool.Repr else {}
  {
    && Readable(d.addr)
    && (d.pool != null ==> d.pool.Valid() && d.self != null && d.self in d.pool.live && d.addr == d.self.addr)
  }

  ghost function PoolMemory(d: DatagramValue): set<object>
    reads d.pool
  {
    if d.pool != null then d.pool.Repr else {}
  }

  /** Messages as they are handed on, in order, all with one address. */
  function Addresseds(xs: seq<Item>, at: HeapAddress): (r: seq<Incoming>)
    ensures |r| == |xs| && forall i :: 0 <= i < |xs| ==> r[i].Addressed? && r[i].message == xs[i] && r[i].at == at
  {
    seq(|xs|, i requires 0 <= i < |xs| => Addressed(xs[i], at))
  }

  class DatagramToMessageDecoder {
    const decoder: Option<Decoder>
    var out: seq<Item>

    constructor (decoder: Option<Decoder>)
      ensures this.decoder == decoder && out == []
    {
      this.decoder := decoder;
      out := [];
    }

    /** `Datagram.Release`: payload and envelope. */
    method ReleaseDatagram(ctx: Context, d: DatagramValue)
      requires AsReceived(d) && Holds(ctx.held, PayloadOwned(d)) && ctx !in PoolMemory(d) && this !in PoolMemory(d)
      modifies ctx`held, ctx`released, PoolMemory(d)
      ensures ctx.held == Without(old(ctx.held), PayloadOwned(d)) && ctx.released == old(ctx.released) + PayloadOwned(d)
      ensures d.pool != null ==>
                && d.pool.Valid() && d.pool.live == old(d.pool.live) - {d.self} && d.pool.Repr == old(d.pool.Repr)
    {
      hide Holds; hide Without; hide DatagramPool.Valid;
      if d.payload.Some? {
        ctx.Release([BufRef(d.payload.value.id)]);
      } else {
        NothingLess(ctx.held);
        assert ctx.released + [] == ctx.released;
      }
      if d.pool != null {
        LiveInRepr(d.pool, d.self);
        ReleaseValue(d);
      }
    }

    /** The loop of `ChannelRead`; while a message is handled, the handlers may use the pool. */
    method ForwardAll(ctx: Context, addr: HeapAddress, pool: DatagramPool?, uses: seq<Use>)
      requires Holds(ctx.held, OwnedBy(out)) && Readable(addr)
      requires pool != null ==> pool.Valid() && Memory(addr) !! pool.Repr && ctx !in pool.Repr && this !in pool.Repr
      requires {this, ctx} !! Memory(addr)
      modifies this, ctx`held, ctx`forwarded, if pool != null then pool.Repr else {}
      ensures ctx.forwarded == old(ctx.forwarded) + Addresseds(old(out), addr)
      ensures ctx.held == Without(old(ctx.held), OwnedBy(old(out))) && out == []
      ensures pool != null ==> pool.Valid() && (old(out) == [] ==> pool.live == old(pool.live))
      ensures Read(addr) == old(Read(addr))
    {
      hide Holds; hide Without; hide OwnedBy; hide Addresseds; hide ItemOwned; hide DatagramPool.Valid;
      ghost var h0, f0 := ctx.held, ctx.forwarded;
      StartForward(h0, f0, out, addr);
      for i := 0 to |out|
        invariant out == old(out)
        invariant ctx.forwarded == f0 + Addresseds(out[..i], addr)
        invariant ctx.held == Without(h0, OwnedBy(out[..i]))
        invariant pool != null ==>
                    && pool.Valid() && fresh(pool.Repr - old(pool.Repr)) && Memory(addr) !! pool.Repr
                    && ctx !in pool.Repr && this !in pool.Repr && (i == 0 ==> pool.live == old(pool.live))
        invariant Read(addr) == old(Read(addr))
      {
        SplitHeld(h0, out, i);
        ForwardNext(f0, out, i, addr);
        ctx.FireChannelRead(Addressed(out[i], addr), ItemOwned(out[i]));
        if pool != null { Churn(pool, uses, [], {}); }
      }
      assert out[..|out|] == out;
      out := [];
    }

    /** `ChannelRead`; `at` is the address the messages made from a datagram carry. */
    method ChannelRead(ctx: Context, msg: InMessage, uses: seq<Use>) returns (at: HeapAddress)
      requires Holds(ctx.held, InOwned(msg))
      requires msg.DatagramIn? ==>
                 var d := msg.datagram;
                 AsReceived(d) && {ctx, this} !! PoolMemory(d) && {ctx, this} !! Memory(d.addr)
      modifies this, ctx, if msg.DatagramIn? then PoolMemory(msg.datagram) else {}
      ensures ctx.written == old(ctx.written)
      // Not a datagram, or not wanted: handed on as it is.
      ensures msg.OtherIn? || (decoder.Some? && !decoder.value.accept(msg.datagram.payload, old(Read(msg.datagram.addr)))) ==>
                && ctx.released == old(ctx.released) && ctx.failures == old(ctx.failures)
                && ctx.forwarded == old(ctx.forwarded) + [AsIs(msg)]
                && ctx.held == Without(old(ctx.held), InOwned(msg))
      // No decoder: released.
      ensures msg.DatagramIn? && decoder.None? ==>
                var d := msg.datagram;
                && ctx.released == old(ctx.released) + PayloadOwned(d) && ctx.forwarded == old(ctx.forwarded)
                && ctx.failures == old(ctx.failures) + [ErrInvalidDecoder]
                && (d.pool != null ==> d.pool.Valid() && d.pool.live == old(d.pool.live) - {d.self})
      // Decoded: the datagram is released once, and its messages are all handed on, in order and with its address,
      // whatever has become of its envelope meanwhile; or, after an error, all released.
      ensures msg.DatagramIn? && decoder.Some? && decoder.value.accept(msg.datagram.payload, old(Read(msg.datagram.addr))) ==>
                var d := msg.datagram;
                var (xs, failed) := decoder.value.decode(d.payload);
                && out == [] && ctx.held == Without(old(ctx.held), PayloadOwned(d))
                && (failed.Some? ==>
                      && ctx.released == old(ctx.released) + PayloadOwned(d) + OwnedBy(xs)
                      && ctx.failures == old(ctx.failures) + [failed.value] && ctx.forwarded == old(ctx.forwarded)
                      && (d.pool != null ==> d.pool.Valid() && d.pool.live == old(d.pool.live) - {d.self}))
                && (failed.None? ==>
                      && ctx.released == old(ctx.released) + PayloadOwned(d) && ctx.failures == old(ctx.failures)
                      && ctx.forwarded == old(ctx.forwarded) + Addresseds(xs, at)
                      && (xs != [] ==> Readable(at) && Read(at) == old(Read(d.addr)))
                      && (d.pool != null ==> d.pool.Valid() && (xs == [] ==> d.pool.live == old(d.pool.live) - {d.self})))
    {
      hide Holds; hide Without; hide OwnedBy; hide Addresseds; hide DatagramPool.Valid;
      at := EMPTY_ADDRESS;
      if msg.OtherIn? {
        ctx.FireChannelRead(AsIs(msg), msg.owned);
        return;
      }
      var d := msg.datagram;
      if decoder.None? {
        ReleaseDatagram(ctx, d);
        ctx.FireExceptionCaught(ErrInvalidDecoder);
        return;
      }
      if !decoder.value.accept(d.payload, Read(d.addr)) {
        ctx.FireChannelRead(AsIs(msg), PayloadOwned(d));
        return;
      }
      var (xs, failed) := decoder.value.decode(d.payload);
      at := Deliver(ctx, d, xs, failed, uses);
    }

    /** An address that outlives the datagram: a copy, if the datagram's own is in a pooled envelope. */
    method Detach(d: DatagramValue) returns (at: HeapAddress)
      requires AsReceived(d)
      ensures Readable(at) && Read(at) == Read(d.addr)
      ensures if d.pool != null then fresh(Memory(at)) else at == d.addr
    {
      hide DatagramPool.Valid;
      at := d.addr;
      if d.pool != null { at := Clone(at); }
    }

    /** What `ChannelRead` does once the payload has been decoded. */
    method Deliver(ctx: Context, d: DatagramValue, xs: seq<Item>, failed: Option<Error>, uses: seq<Use>)
      returns (at: HeapAddress)
      requires Holds(ctx.held, PayloadOwned(d)) && AsReceived(d)
      requires {ctx, this} !! PoolMemory(d) && {ctx, this} !! Memory(d.addr)
      modifies this, ctx, PoolMemory(d)
      ensures ctx.written == old(ctx.written) && out == [] && ctx.held == Without(old(ctx.held), PayloadOwned(d))
      ensures failed.Some? ==>
                && ctx.released == old(ctx.released) + PayloadOwned(d) + OwnedBy(xs)
                && ctx.failures == old(ctx.failures) + [failed.value] && ctx.forwarded == old(ctx.forwarded)
                && (d.pool != null ==> d.pool.Valid() && d.pool.live == old(d.pool.live) - {d.self})
      ensures failed.None? ==>
                && ctx.released == old(ctx.released) + PayloadOwned(d) && ctx.failures == old(ctx.failures)
                && ctx.forwarded == old(ctx.forwarded) + Addresseds(xs, at)
                && (xs != [] ==> Readable(at) && Read(at) == old(Read(d.addr)))
                && (d.pool != null ==> d.pool.Valid() && (xs == [] ==> d.pool.live == old(d.pool.live) - {d.self}))
    {
      hide Holds; hide Without; hide OwnedBy; hide Addresseds; hide DatagramPool.Valid; hide PayloadOwned; hide AsReceived;
      at := Consume(ctx, d, xs, failed);
      if failed.Some? {
        ReleaseItems(ctx, out);
        out := [];
        ctx.FireExceptionCaught(failed.value);
        return;
      }
      ForwardAll(ctx, at, d.pool, uses);
    }

    /** The list takes the decoded messages, and the datagram is released. */
    method Consume(ctx: Context, d: DatagramValue, xs: seq<Item>, failed: Option<Error>) returns (at: HeapAddress)
      requires Holds(ctx.held, PayloadOwned(d)) && AsReceived(d)
      requires {ctx, this} !! PoolMemory(d) && {ctx, this} !! Memory(d.addr)
      modifies this, ctx`held, ctx`released, PoolMemory(d)
      ensures out == xs && Holds(ctx.held, OwnedBy(xs))
      ensures Without(ctx.held, OwnedBy(xs)) == Without(old(ctx.held), PayloadOwned(d))
      ensures ctx.released == old(ctx.released) + PayloadOwned(d)
      ensures Readable(at) && {ctx, this} !! Memory(at)
      ensures failed.None? && xs != [] ==> Read(at) == old(Read(d.addr))
      ensures d.pool != null ==>
                && d.pool.Valid() && d.pool.live == old(d.pool.live) - {d.self} && d.pool.Repr == old(d.pool.Repr)
                && Memory(at) !! d.pool.Repr
    {
      hide Holds; hide Without; hide OwnedBy; hide DatagramPool.Valid; hide PayloadOwned;
      at := EMPTY_ADDRESS;
      GainThenGive(ctx.held, PayloadOwned(d), OwnedBy(xs));
      out := xs;
      ctx.Gain(OwnedBy(xs));
      if failed.None? && xs != [] { at := Detach(d); }
      ReleaseDatagram(ctx, d);
    }
  }

  lemma StartForward(h: multiset<Resource>, before: seq<Incoming>, xs: seq<Item>, addr: HeapAddress)
    ensures xs[..0] == [] && before + Addresseds([], addr) == before && Without(h, OwnedBy([])) == h
  {
    NothingLess(h);
  }

  lemma ForwardNext(before: seq<Incoming>, xs: seq<Item>, i: nat, addr: HeapAddress)
    requires i < |xs|
    ensures before + Addresseds(xs[..i + 1], addr) == before + Addresseds(xs[..i], addr) + [Addressed(xs[i], addr)]
  {
    assert Addresseds(xs[..i + 1], addr) == Addresseds(xs[..i], addr) + [Addressed(xs[i], addr)];
  }
}
