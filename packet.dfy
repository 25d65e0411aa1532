/** Packets and the singly-linked packet queues the tasks keep. Each queue in the
    heap is paired with a ghost sequence of its packets (its spine), and each
    packet carries a ghost record of which queue holds it, so that two queues are
    known to share no packet. */
module PacketQueues {
  import opened Payload

  /** KIND_DEVICE (0) and KIND_WORK (1). */
  datatype Kind = KindDevice | KindWork

  /** Where a packet is: in the inbound queue of the block registered under `id`, in
      the work or the device list of the handler registered there, kept by the
      device registered there, or in transit between two of these. */
  datatype Holder =
    | Transit
    | Inbound(id: int)
    | WorkList(id: int)
    | DeviceList(id: int)
    | DeviceSlot(id: int)

  class Packet {
    var link: Packet?
    var id: int
    const kind: Kind
    var a1: nat
    const a2: array<nat>
    ghost var holder: Holder

    /** A packet with an empty payload cursor and DATA_SIZE payload slots; the
        program leaves the slots undefined, here they hold 0. */
    constructor (link: Packet?, id: int, kind: Kind)
      ensures this.link == link && this.id == id && this.kind == kind
      ensures a1 == 0 && fresh(a2) && a2.Length == DATA_SIZE && holder == Transit
    {
      this.link := link;
      this.id := id;
      this.kind := kind;
      a1 := 0;
      a2 := new nat[DATA_SIZE];
      holder := Transit;
    }

    /** addTo: unlinks this packet and appends it at the tail of `queue`, walking the
        links to find the tail; the result is the head of the longer queue. Only
        this packet's link and the old tail's link change. */
    method AddTo(queue: Packet?, ghost spine: seq<Packet>) returns (r: Packet)
      requires IsQueue(queue, spine) && this !in spine && a2.Length == DATA_SIZE
      modifies this`link, Last(spine)`link
      ensures IsQueue(r, spine + [this])
      ensures r == if spine == [] then this else queue
    {
      ChainDistinct(queue, spine);
      link := null;
      if queue == null {
        return this;
      }
      var next := queue;
      ghost var k := 0;
      while next.link != null
        invariant 0 <= k < |spine| && next == spine[k]
        invariant IsQueue(queue, spine)
        decreases |spine| - k
      {
        next := next.link;
        k := k + 1;
      }
      LinklessIsTail(queue, spine, k);
      next.link := this;
      r := queue;
    }
  }

  /** The packets of `spine` and their payload arrays. */
  ghost function Objects(spine: seq<Packet>): set<object> {
    (set p: Packet | p in spine) + (set p: Packet | p in spine :: p.a2)
  }

  /** A packet that may be null, as a frame. */
  function Opt(p: Packet?): set<Packet> {
    if p == null then {} else {p}
  }

  /** The tail of a queue, as a frame. */
  function Last(spine: seq<Packet>): set<Packet> {
    if spine == [] then {} else {spine[|spine| - 1]}
  }

  /** The head of a queue, as a frame. */
  function First(spine: seq<Packet>): set<Packet> {
    if spine == [] then {} else {spine[0]}
  }

  /** `head` starts a linked queue whose packets, in order, are `spine`: each links
      to the next and the last to null. Every packet has its DATA_SIZE payload
      slots. */
  ghost predicate IsQueue(head: Packet?, spine: seq<Packet>)
    reads spine`link
  {
    (if spine == [] then head == null else head == spine[0]) &&
    (forall k :: 0 <= k < |spine| - 1 ==> spine[k].link == spine[k + 1]) &&
    (spine != [] ==> spine[|spine| - 1].link == null) &&
    (forall p :: p in spine ==> p.a2.Length == DATA_SIZE)
  }

  /** Every packet of `spine` records `h` as its holder. */
  ghost predicate HeldBy(spine: seq<Packet>, h: Holder)
    reads spine`holder
  {
    forall p :: p in spine ==> p.holder == h
  }

  /** Only the tail of a queue has no successor. */
  lemma LinklessIsTail(head: Packet?, spine: seq<Packet>, k: nat)
    requires IsQueue(head, spine) && k < |spine|
    ensures spine[k].link == null <==> k == |spine| - 1
  {
    if k < |spine| - 1 {
      assert spine[k].link == spine[k + 1];
    }
  }

  /** A linked queue never visits a packet twice: it has no cycle. */
  lemma ChainDistinct(head: Packet?, spine: seq<Packet>)
    requires IsQueue(head, spine)
    ensures forall i, j :: 0 <= i < j < |spine| ==> spine[i] != spine[j]
  {
    forall i, j | 0 <= i < j < |spine|
      ensures spine[i] != spine[j]
    {
      ChainDistinctFrom(spine, i, j);
    }
  }

  lemma {:induction false} ChainDistinctFrom(spine: seq<Packet>, i: nat, j: nat)
    requires IsQueue(if spine == [] then null else spine[0], spine)
    requires i < j < |spine|
    ensures spine[i] != spine[j]
    decreases |spine| - j
  {
    assert spine[i].link == spine[i + 1];
    if j + 1 < |spine| {
      ChainDistinctFrom(spine, i + 1, j + 1);
      assert spine[j].link == spine[j + 1];
    } else {
      assert spine[j].link == null;
    }
  }

  /** Taking the head off a queue leaves a queue headed by the head's link, which no
      longer contains the old head. */
  lemma PopQueue(head: Packet?, spine: seq<Packet>)
    requires IsQueue(head, spine) && spine != []
    ensures IsQueue(spine[0].link, spine[1..])
    ensures spine[0] !in spine[1..]
  {
    ChainDistinct(head, spine);
    if |spine| > 1 {
      assert spine[0].link == spine[1];
    }
  }
}
