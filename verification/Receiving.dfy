/** What a receive does with the buffers it acquires: each is in the batch it returns, or has been given up. */
module Receiving {
  import opened Wrappers
  import opened Addresses
  import opened World

  lemma RefsSplit(ms: seq<Inbound>)
    requires ms != []
    ensures Refs(ms) == Refs([ms[0]]) + Refs(ms[1..])
    ensures Refs([ms[0]]) == multiset{BufRef(ms[0].payload.id)}
  {
    assert Bufs(Payloads([ms[0]])) == [BufRef(ms[0].payload.id)];
    assert Bufs(Payloads(ms)) == Bufs(Payloads([ms[0]])) + Bufs(Payloads(ms[1..]));
  }

  lemma RefsAppend(ms: seq<Inbound>, m: Inbound)
    ensures Refs(ms + [m]) == Refs(ms) + multiset{BufRef(m.payload.id)}
  {
    assert Bufs(Payloads(ms + [m])) == Bufs(Payloads(ms)) + [BufRef(m.payload.id)];
  }

  /** A reference taken in hand and then counted with the batch. */
  lemma Regroup(a: multiset<Resource>, d: multiset<Resource>, x: multiset<Resource>, w: multiset<Resource>, m: multiset<Resource>)
    requires a + (d + x) == (w + x) + m
    ensures a + d == w + m
  {
    assert (a + (d + x)) - x == a + d;
    assert ((w + x) + m) - x == w + m;
  }

  /** The references to some buffers. */
  function BufRefs(ids: seq<nat>): multiset<Resource> { multiset(Bufs(ids)) }

  lemma NoBufs()
    ensures BufRefs([]) == multiset{}
  {
    assert Bufs([]) == [];
  }

  lemma DiscardAllHand(w: World, ids: seq<nat>)
    ensures DiscardAll(w, ids).inHand == w.inHand - BufRefs(ids)
  {
  }

  lemma BufRefsAppend(ids: seq<nat>, id: nat)
    ensures BufRefs(ids + [id]) == BufRefs(ids) + multiset{BufRef(id)}
  {
    assert Bufs(ids + [id]) == Bufs(ids) + [BufRef(id)];
  }

  lemma BufRefsSplit(ids: seq<nat>, k: nat)
    requires k <= |ids|
    ensures BufRefs(ids) == BufRefs(ids[..k]) + BufRefs(ids[k..])
  {
    assert Bufs(ids) == Bufs(ids[..k]) + Bufs(ids[k..]);
  }

  lemma AcquireHand(w: World)
    ensures var (r, got) := AcquireBuf(w);
            && r.inHand == w.inHand + (if got.Some? then multiset{BufRef(got.value)} else multiset{})
            && r.arrivals == w.arrivals && r.pendingWrites == w.pendingWrites && r.pendingReads == w.pendingReads
  {
  }

  lemma SingleHand(w: World, size: nat)
    ensures var r := ReceiveSingle(w, size); r.w.inHand == w.inHand + Refs(r.messages)
    ensures ReceiveSingle(w, size).messages != [] ==> |ReceiveSingle(w, size).messages| == 1
  {
    hide AcquireBuf; hide FromRawSockaddr; hide Refs;
    AcquireHand(w);
    var (w1, got) := AcquireBuf(w);
    assert Refs([]) == multiset{} by { NoRefs(); }
    var r := ReceiveSingle(w, size);
    if got.Some? {
      assert w1.inHand - multiset{BufRef(got.value)} == w.inHand;
      if r.messages != [] { RefsSplit(r.messages); }
    }
  }

  lemma NoRefs()
    ensures Refs([]) == multiset{}
  {
    assert Bufs(Payloads([])) == [];
  }

  lemma {:induction false} FallbackHand(w: World, size: nat, limit: nat, done: seq<Inbound>)
    requires |done| <= limit
    ensures var r := FallbackReceive(w, size, limit, done);
            r.w.inHand + Refs(done) == w.inHand + Refs(r.messages)
    decreases limit - |done|
  {
    hide ReceiveSingle; hide Refs;
    if |done| < limit {
      var one := ReceiveSingle(w, size);
      SingleHand(w, size);
      if one.messages == [] {
        NoRefs();
      } else {
        assert one.messages == [one.messages[0]];
        RefsSplit(one.messages);
        RefsAppend(done, one.messages[0]);
        var next := done + [one.messages[0]];
        FallbackHand(one.w, size, limit, next);
        var r := FallbackReceive(one.w, size, limit, next);
        Regroup(r.w.inHand, Refs(done), Refs(one.messages), w.inHand, Refs(r.messages));
      }
    }
  }

  lemma {:induction false} PrepareHand(w: World, limit: nat, ids: seq<nat>)
    requires |ids| <= limit
    requires BufRefs(ids) <= w.inHand
    ensures var (r, got) := Prepare(w, limit, ids);
            if got.Some? then BufRefs(got.value) <= r.inHand && r.inHand + BufRefs(ids) == w.inHand + BufRefs(got.value)
            else r.inHand == w.inHand - BufRefs(ids)
    decreases limit - |ids|
  {
    hide AcquireBuf; hide BufRefs; hide DiscardAll;
    if |ids| < limit {
      AcquireHand(w);
      var (w1, got) := AcquireBuf(w);
      if got.None? {
        DiscardAllHand(w1, ids);
      } else {
        BufRefsAppend(ids, got.value);
        PrepareHand(w1, limit, ids + [got.value]);
        var (r, all) := Prepare(w1, limit, ids + [got.value]);
        if all.Some? {
          Regroup(r.inHand, BufRefs(ids), multiset{BufRef(got.value)}, w.inHand, BufRefs(all.value));
        } else {
          assert w1.inHand - BufRefs(ids + [got.value]) == w.inHand - BufRefs(ids);
        }
      }
    }
  }

  /** Until a bad address, descriptor `i` yields message `i` in buffer `i`; the other buffers go back. */
  lemma {:induction false} UnpackHand(w: World, size: nat, packets: seq<Arrival>, ids: seq<nat>, done: seq<Inbound>)
    requires |done| <= |packets| <= |ids|
    requires forall i :: 0 <= i < |packets| ==> packets[i].Packet?
    requires Payloads(done) == ids[..|done|]
    ensures var r := Unpack(w, size, packets, ids, done);
            && |r.messages| <= |packets|
            && Payloads(r.messages) == ids[..|r.messages|]
            && r.w == DiscardAll(w, ids[|r.messages|..])
    decreases |packets| - |done|
  {
    hide DiscardAll;
    var index := |done|;
    if index < |packets| && FromRawSockaddr(packets[index].from, packets[index].length).Success? {
      var addr := FromRawSockaddr(packets[index].from, packets[index].length).value;
      var m := Inbound(Buf(ids[index], Cut(packets[index].data, size)), addr);
      assert Payloads(done + [m]) == ids[..index + 1];
      UnpackHand(w, size, packets, ids, done + [m]);
    }
  }

  lemma UnpackTail(w: World, before: multiset<Resource>, size: nat, packets: seq<Arrival>, ids: seq<nat>)
    requires |packets| <= |ids| && forall i :: 0 <= i < |packets| ==> packets[i].Packet?
    requires w.inHand == before + BufRefs(ids)
    ensures var r := Unpack(w, size, packets, ids, []); r.w.inHand == before + Refs(r.messages)
  {
    hide Unpack; hide BufRefs; hide DiscardAll; hide Refs;
    assert Payloads([]) == ids[..0];
    UnpackHand(w, size, packets, ids, []);
    var r := Unpack(w, size, packets, ids, []);
    BufRefsSplit(ids, |r.messages|);
    DiscardAllHand(w, ids[|r.messages|..]);
    RefsPayloads(r.messages, ids[..|r.messages|]);
    assert before + (BufRefs(ids[..|r.messages|]) + BufRefs(ids[|r.messages|..])) - BufRefs(ids[|r.messages|..])
        == before + BufRefs(ids[..|r.messages|]);
  }

  lemma RefsPayloads(ms: seq<Inbound>, ids: seq<nat>)
    requires Payloads(ms) == ids
    ensures Refs(ms) == BufRefs(ids)
  {
  }

  lemma LinuxHand(w: World, size: nat, limit: nat)
    requires limit > 0
    ensures var r := LinuxReceive(w, size, limit); r.w.inHand == w.inHand + Refs(r.messages)
  {
    hide Unpack; hide Prepare; hide DiscardAll; hide Refs;
    NoRefs();
    NoBufs();
    PrepareHand(w, limit, []);
    var (w1, prepared) := Prepare(w, limit, []);
    if prepared.Some? {
      var ids := prepared.value;
      assert w1.inHand == w.inHand + BufRefs(ids);
      var count := PacketPrefix(w1.arrivals, |ids|);
      if count > 0 {
        UnpackTail(w1.(arrivals := w1.arrivals[count..]), w.inHand, size, w1.arrivals[..count], ids);
      } else {
        DiscardAllHand(w1, ids);
        if w1.arrivals != [] { DiscardAllHand(w1.(arrivals := w1.arrivals[1..]), ids); }
        assert w.inHand + BufRefs(ids) - BufRefs(ids) == w.inHand;
      }
    }
  }

  /** The one reference a receive leaves in hand for each message it returns. */
  lemma ReceiveHand(linux: bool, w: World, size: nat, limit: int)
    ensures var r := ReceiveInbound(linux, w, size, limit); r.w.inHand == w.inHand + Refs(r.messages)
  {
    hide ReceiveSingle; hide LinuxReceive; hide FallbackReceive;
    NoRefs();
    if limit <= 1 { SingleHand(w, size); }
    else if linux { LinuxHand(w, size, Min(limit, MAX_READ_BATCH)); }
    else { FallbackHand(w, size, Min(limit, MAX_READ_BATCH), []); }
  }
}
