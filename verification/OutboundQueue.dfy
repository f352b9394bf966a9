/**
 * The endpoint's outbound list and free list (the fields `outHead`, `outTail` and `outFree` of endpoint.go and the
 * code that touches only them): singly linked entries, reused in place.
 */
module OutboundQueue {
  import opened Wrappers
  import opened World

  /** `outboundDatagram`; a free entry has no datagram. */
  class Entry {
    var datagram: Option<Datagram>
    var next: Entry?

    constructor (d: Datagram)
      ensures datagram == Some(d) && next == null
    {
      datagram := Some(d);
      next := null;
    }
  }

  class OutboundQueue {
    var outHead: Entry?
    var outTail: Entry?
    var outFree: Entry?

    ghost var chain: seq<Entry>
    ghost var spares: seq<Entry>
    ghost var Repr: set<object>

    /** The entry after the `i`-th. */
    static ghost function After(es: seq<Entry>, i: int): Entry?
      requires 0 <= i < |es|
    {
      if i + 1 < |es| then es[i + 1] else null
    }

    /** Entries linked one to the next, the last to nothing, and none twice. */
    static ghost predicate Links(es: seq<Entry>)
      reads es`next
    {
      && (forall i :: 0 <= i < |es| ==> es[i].next == After(es, i))
      && (forall i, j :: 0 <= i < j < |es| ==> es[i] != es[j])
    }

    static ghost predicate Full(es: seq<Entry>)
      reads es`datagram
    {
      forall i :: 0 <= i < |es| ==> es[i].datagram.Some?
    }

    static ghost predicate Empty(es: seq<Entry>)
      reads es`datagram
    {
      forall i :: 0 <= i < |es| ==> es[i].datagram.None?
    }

    static ghost function First(es: seq<Entry>): Entry? { if es == [] then null else es[0] }

    static ghost function Last(es: seq<Entry>): Entry? { if es == [] then null else es[|es| - 1] }

    /** The two lists are acyclic, end where the fields say, and share no entry. */
    ghost predicate Valid()
      reads this, Repr
      ensures Valid() ==> this in Repr
    {
      && this in Repr
      && (forall i :: 0 <= i < |chain| ==> chain[i] in Repr)
      && (forall i :: 0 <= i < |spares| ==> spares[i] in Repr)
      && Links(chain) && Links(spares) && Full(chain) && Empty(spares)
      && outHead == First(chain) && outTail == Last(chain) && outFree == First(spares)
    }

    /** The queued datagrams. */
    ghost function Queue(): (q: seq<Datagram>)
      requires Valid()
      reads this, Repr
      ensures |q| == |chain| && (outHead == null <==> q == [])
    {
      Datagrams(chain)
    }

    static ghost function Datagrams(es: seq<Entry>): (q: seq<Datagram>)
      requires Full(es)
      reads es`datagram
      ensures |q| == |es| && forall i :: 0 <= i < |es| ==> q[i] == es[i].datagram.value
    {
      if es == [] then [] else [es[0].datagram.value] + Datagrams(es[1..])
    }

    constructor ()
      ensures Valid() && fresh(Repr) && Queue() == [] && spares == []
    {
      outHead, outTail, outFree := null, null, null;
      chain, spares := [], [];
      Repr := {this};
    }

    static lemma LinksTail(es: seq<Entry>)
      requires Links(es) && es != []
      ensures Links(es[1..]) && es[0].next == First(es[1..]) && es[0] !in es[1..]
    {
      var rest := es[1..];
      forall i | 0 <= i < |rest| ensures rest[i].next == After(rest, i) {
        assert rest[i] == es[i + 1];
      }
    }

    static lemma LinksCons(e: Entry, es: seq<Entry>)
      requires Links(es) && e.next == First(es) && e !in es
      ensures Links([e] + es)
    {
      var all := [e] + es;
      forall i | 0 <= i < |all| ensures all[i].next == After(all, i) {
        if i > 0 { assert all[i] == es[i - 1]; }
      }
    }

    static lemma EmptyCons(e: Entry, es: seq<Entry>)
      requires Empty(es) && e.datagram.None?
      ensures Empty([e] + es)
    {
    }

    static lemma EmptyTail(es: seq<Entry>)
      requires Empty(es) && es != []
      ensures Empty(es[1..]) && es[0].datagram.None?
    {
    }

    /** A full entry is not an empty one. */
    static lemma Apart(es: seq<Entry>, fs: seq<Entry>)
      requires Full(es) && Empty(fs)
      ensures forall i :: 0 <= i < |es| ==> es[i] !in fs
      ensures forall i :: 0 <= i < |fs| ==> fs[i] !in es
    {
    }

    /** `acquireEntry`: a free entry if there is one, else a new one. */
    method AcquireEntry(d: Datagram) returns (entry: Entry)
      requires Valid()
      modifies Repr
      ensures Valid() && fresh(Repr - old(Repr)) && entry in Repr
      ensures entry.datagram == Some(d) && entry.next == null && entry !in chain && entry !in spares
      ensures chain == old(chain) && Queue() == old(Queue())
      ensures if old(spares) == [] then spares == [] && fresh(entry) else spares == old(spares)[1..] && entry == old(spares)[0]
    {
      hide Links; hide Full; hide Empty; hide Datagrams;
      if outFree == null {
        entry := new Entry(d);
        Repr := Repr + {entry};
      } else {
        Apart(chain, spares);
        LinksTail(spares);
        EmptyTail(spares);
        entry := outFree;
        ghost var rest := spares[1..];
        outFree := entry.next;
        entry.datagram := Some(d);
        entry.next := null;
        spares := rest;
      }
    }

    /** `releaseEntry`: the entry heads the free list. */
    method ReleaseEntry(entry: Entry)
      requires Valid() && entry in Repr && entry !in chain && entry !in spares
      modifies this`outFree, this`spares, entry
      ensures Valid() && Queue() == old(Queue()) && spares == [entry] + old(spares)
    {
      hide Links; hide Full; hide Empty; hide Datagrams;
      entry.datagram := None;
      entry.next := outFree;
      outFree := entry;
      LinksCons(entry, spares);
      EmptyCons(entry, spares);
      spares := [entry] + spares;
    }

    // ---- the end of the list ----

    static lemma LinksSnoc(es: seq<Entry>, e: Entry)
      requires forall i :: 0 <= i < |es| - 1 ==> es[i].next == es[i + 1]
      requires forall i, j :: 0 <= i < j < |es| ==> es[i] != es[j]
      requires es != [] ==> es[|es| - 1].next == e
      requires e.next == null && e !in es
      ensures Links(es + [e])
    {
      var all := es + [e];
      forall i | 0 <= i < |all| ensures all[i].next == After(all, i) {
        if i < |es| - 1 { assert all[i] == es[i] && all[i + 1] == es[i + 1]; }
      }
    }

    static lemma FullSnoc(es: seq<Entry>, e: Entry)
      requires Full(es) && e.datagram.Some?
      ensures Full(es + [e]) && Datagrams(es + [e]) == Datagrams(es) + [e.datagram.value]
    {
      assert |Datagrams(es + [e])| == |es| + 1;
    }

    static lemma LinksInner(es: seq<Entry>)
      requires Links(es)
      ensures forall i :: 0 <= i < |es| - 1 ==> es[i].next == es[i + 1]
      ensures forall i, j :: 0 <= i < j < |es| ==> es[i] != es[j]
    {
    }

    /** The list part of `enqueue`. */
    method Append(d: Datagram)
      requires Valid()
      modifies Repr
      ensures Valid() && fresh(Repr - old(Repr))
      ensures Queue() == old(Queue()) + [d]
      ensures |spares| == (if old(|spares|) == 0 then 0 else old(|spares|) - 1)
    {
      hide Full; hide Empty; hide Datagrams; hide Links;
      var entry := AcquireEntry(d);
      Link(entry);
    }

    method Link(entry: Entry)
      requires Valid() && entry in Repr && entry !in chain && entry !in spares
      requires entry.datagram.Some? && entry.next == null
      modifies this`outHead, this`outTail, this`chain, (if outTail == null then {} else {outTail})`next
      ensures Valid() && Queue() == old(Queue()) + [entry.datagram.value] && spares == old(spares)
    {
      hide Full; hide Empty; hide Datagrams; hide Links;
      ghost var before := chain;
      LinksInner(chain);
      Apart(chain, spares);
      if outTail == null {
        outHead := entry;
        outTail := entry;
      } else {
        outTail.next := entry;
        outTail := entry;
      }
      LinksSnoc(before, entry);
      FullSnoc(before, entry);
      chain := before + [entry];
    }

    /** The list part of `dequeue`: the head leaves the list. */
    method Unlink() returns (entry: Entry)
      requires Valid() && chain != []
      modifies this`outHead, this`outTail, this`chain
      ensures Valid() && entry == old(chain)[0] && chain == old(chain)[1..] && spares == old(spares)
      ensures entry in Repr && entry !in chain && entry !in spares
      ensures entry.datagram == Some(old(Queue())[0]) && Queue() == old(Queue())[1..]
    {
      hide Full; hide Empty; hide Datagrams; hide Links;
      FullTail(chain);
      LinksTail(chain);
      Apart(chain, spares);
      entry := outHead;
      outHead := entry.next;
      if outHead == null { outTail := null; }
      chain := chain[1..];
    }

    static lemma FullTail(es: seq<Entry>)
      requires Full(es) && es != []
      ensures Full(es[1..]) && es[0].datagram == Some(Datagrams(es)[0]) && Datagrams(es[1..]) == Datagrams(es)[1..]
    {
    }

    static lemma At(es: seq<Entry>, i: nat)
      requires Links(es) && Full(es) && i < |es|
      ensures es[i].next == After(es, i) && es[i].datagram == Some(Datagrams(es)[i])
    {
    }

    lemma HeadIs()
      requires Valid() && outHead != null
      ensures Queue() != [] && outHead.datagram == Some(Queue()[0])
    {
    }

    /** `copyOutboundBatch`: as much of the head of the queue as the destination has room for. */
    method CopyBatch(dst: array<Datagram>) returns (count: nat)
      requires Valid() && dst !in Repr
      modifies dst
      ensures Valid() && Queue() == old(Queue()) && spares == old(spares)
      ensures count == Min(dst.Length, |Queue()|) && dst[..count] == Queue()[..count]
    {
      hide Full; hide Empty; hide Datagrams; hide Links;
      ghost var q := Queue();
      var entry := outHead;
      count := 0;
      while entry != null && count < dst.Length
        invariant Valid() && Queue() == q
        invariant count <= |chain| && count <= dst.Length
        invariant entry == (if count < |chain| then chain[count] else null)
        invariant dst[..count] == q[..count]
        decreases |chain| - count
      {
        At(chain, count);
        dst[count] := entry.datagram.value;
        entry := entry.next;
        count := count + 1;
      }
    }

    /** The second loop of `releaseOutbound`: the free list is given up. */
    method FreeEntries()
      requires Valid()
      modifies Repr
      ensures Valid() && Repr == old(Repr) && Queue() == old(Queue()) && spares == []
    {
      hide Full; hide Empty; hide Datagrams; hide Links;
      while outFree != null
        invariant Valid() && Repr == old(Repr) && Queue() == old(Queue()) && chain == old(chain)
        decreases |spares|
      {
        LinksTail(spares);
        EmptyTail(spares);
        Apart(chain, spares);
        ghost var rest := spares[1..];
        var entry := outFree;
        outFree := entry.next;
        spares := rest;
        entry.next := null;
      }
    }
  }
}
