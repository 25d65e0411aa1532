/** runRichards: the fixed set-up of six tasks, the run of the scheduler, and the
    program's check of its two counters against the expected totals. */
module Benchmark {
  import opened TaskState
  import opened PacketQueues
  import opened Richards

  /** What runRichards ends with: the expected counts, the error it raises with the
      counts it found, or, in this model only, a run cut short by its step bound. */
  datatype Verdict =
    | Passed
    | Failed(queueCount: int, holdCount: int)
    | OutOfSteps

  /** `new Packet(queue, id, kind)`: a fresh packet that links to `queue` and so
      heads a queue one packet longer. */
  method Prepend(queue: Packet?, ghost spine: seq<Packet>, id: int, kind: Kind)
    returns (p: Packet, ghost spine': seq<Packet>)
    requires IsQueue(queue, spine)
    ensures fresh(p) && fresh(p.a2) && p.id == id && p.kind == kind && p.a1 == 0
    ensures spine' == [p] + spine && IsQueue(p, spine') && Objects(spine') == Objects(spine) + {p, p.a2}
  {
    p := new Packet(queue, id, kind);
    spine' := [p] + spine;
    assert forall k :: 0 < k < |spine'| ==> spine'[k] == spine[k - 1];
  }

  /** `n` packets, in order, all addressed to `id`, of kind `kind` and with cursor
      zero. */
  ghost predicate Packets(spine: seq<Packet>, n: nat, id: int, kind: Kind)
    reads set p | p in spine
  {
    |spine| == n && forall p :: p in spine ==> p.id == id && p.kind == kind && p.a1 == 0
  }

  /** The objects that `r1` adds to `r0` are those of `a`, the packets of `spine` and
      their payloads; when all of these are fresh, so are the objects added. */
  twostate lemma FreshGrowth(r0: set<object>, new r1: set<object>, new a: set<object>, new spine: seq<Packet>)
    requires r1 == r0 + a + Objects(spine) && fresh(a)
    requires forall i :: 0 <= i < |spine| ==> fresh(spine[i]) && fresh(spine[i].a2)
    ensures fresh(r1 - r0)
  {
  }

  /** The two work packets of the set-up, both addressed to the worker. */
  method WorkPackets(s: Scheduler) returns (queue: Packet, ghost spine: seq<Packet>)
    ensures IsQueue(queue, spine) && queue == spine[0] && Packets(spine, 2, ID_WORKER, KindWork)
    ensures forall i :: 0 <= i < |spine| ==> fresh(spine[i]) && fresh(spine[i].a2)
    ensures forall p :: p in spine ==> p !in s.Repr && p.a2 !in s.Repr
  {
    queue, spine := Prepend(null, [], ID_WORKER, KindWork);
    queue, spine := Prepend(queue, spine, ID_WORKER, KindWork);
  }

  /** The three device packets of the set-up for one handler, addressed to `device`. */
  method DevicePackets(s: Scheduler, device: int) returns (queue: Packet, ghost spine: seq<Packet>)
    ensures IsQueue(queue, spine) && queue == spine[0] && Packets(spine, 3, device, KindDevice)
    ensures forall i :: 0 <= i < |spine| ==> fresh(spine[i]) && fresh(spine[i].a2)
    ensures forall p :: p in spine ==> p !in s.Repr && p.a2 !in s.Repr
  {
    queue, spine := Prepend(null, [], device, KindDevice);
    queue, spine := Prepend(queue, spine, device, KindDevice);
    queue, spine := Prepend(queue, spine, device, KindDevice);
  }

  /** The role the set-up gives the block under id `i`: its id, priority 1000 times
      the id, and the kind of task it runs (idle, worker, the two handlers, the two
      devices). */
  ghost predicate Planned(t: TaskControlBlock, i: int) {
    t.id == i && t.priority == 1000 * i && Role(t.task, i)
  }

  /** The kind of task the set-up runs under id `i`. */
  ghost predicate Role(task: Task, i: int) {
    if i == ID_IDLE then task.Idle?
    else if i == ID_WORKER then task.Worker?
    else if i == ID_HANDLER_A || i == ID_HANDLER_B then task.Handler?
    else task.Device?
  }

  /** The list from `t` holds, in order, the planned blocks of ids n-1 down to 0 and
      ends there. */
  ghost predicate Linked(t: TaskControlBlock?, n: nat) {
    if n == 0 then t == null else t != null && Planned(t, n - 1) && Linked(t.link, n - 1)
  }

  /** The idle task of `task`, as a frame. */
  function IdleOf(task: Task): set<IdleTask> {
    if task.Idle? then {task.idle} else {}
  }

  /** The worker task of `task`, as a frame. */
  function WorkerOf(task: Task): set<WorkerTask> {
    if task.Worker? then {task.worker} else {}
  }

  /** The device the handler under id `i` serves: A for handler A, B for handler B. */
  function DeviceFor(i: int): int {
    if i == ID_HANDLER_A then ID_DEVICE_A else ID_DEVICE_B
  }

  /** The state in which the set-up leaves the block under id `i`: the idle task
      RUNNING with seed 1, counting down from COUNT, and no packet; the worker
      SUSPENDED_RUNNABLE, addressing handler A first with counter 0, with two
      work packets for itself; each handler SUSPENDED_RUNNABLE with empty lists and
      three device packets for its device; each device SUSPENDED, keeping nothing
      and with no packet. */
  ghost predicate Initial(t: TaskControlBlock, i: int)
    reads t, t.spine, IdleOf(t.task), WorkerOf(t.task), DeviceOf(t.task), HandlerOf(t.task)
  {
    if i == ID_IDLE then
      t.state == STATE_RUNNING && t.queue == null && t.task.Idle? &&
      t.task.idle.v1 == 1 && t.task.idle.count == COUNT
    else if i == ID_WORKER then
      t.state == STATE_SUSPENDED_RUNNABLE && Packets(t.spine, 2, ID_WORKER, KindWork) &&
      t.task.Worker? && t.task.worker.v1 == ID_HANDLER_A && t.task.worker.v2 == 0
    else if i == ID_HANDLER_A || i == ID_HANDLER_B then
      t.state == STATE_SUSPENDED_RUNNABLE && Packets(t.spine, 3, DeviceFor(i), KindDevice) &&
      t.task.Handler? && Pristine(t.task)
    else
      t.state == STATE_SUSPENDED && t.queue == null && t.task.Device? && Pristine(t.task)
  }

  /** Exactly the ids below `n` hold a block. */
  ghost predicate Filled(s: Scheduler, n: int)
    reads s, s.blocks
  {
    forall i :: 0 <= i < NUMBER_OF_IDS ==> (s.Block(i) != null <==> i < n)
  }

  /** The first `n` lines of the set-up are done: the list runs through the planned
      blocks of ids n-1 down to 0 and exactly those ids hold a block. */
  ghost predicate Chain(s: Scheduler, n: nat)
    reads s, s.blocks
  {
    n <= NUMBER_OF_IDS && Linked(s.list, n) && Filled(s, n)
  }

  /** addIdleTask(ID_IDLE, 0, null, COUNT): the idle task, RUNNING from the start. */
  method AddIdle(s: Scheduler)
    requires s.Valid() && Chain(s, ID_IDLE)
    modifies s, s.blocks
    ensures s.Valid() && Chain(s, ID_IDLE + 1) && fresh(s.Repr - old(s.Repr))
    ensures s.queueCount == old(s.queueCount) && s.holdCount == old(s.holdCount)
    ensures Initial(s.Block(ID_IDLE), ID_IDLE)
    ensures forall i :: 0 <= i < NUMBER_OF_IDS && i != ID_IDLE ==> s.Block(i) == old(s.Block(i))
  {
    assert s.Block(ID_IDLE) == null;
    s.AddIdleTask(ID_IDLE, 0, null, [], COUNT);
    FreshGrowth(old(s.Repr), s.Repr, {s.currentTcb, TaskObject(s.currentTcb.task)}, []);
  }

  /** The worker's two work packets, then addWorkerTask with priority 1000. */
  method EnlistWorker(s: Scheduler) returns (ghost spine: seq<Packet>)
    requires s.Valid() && s.Block(ID_WORKER) == null
    modifies s, s.blocks
    ensures Packets(spine, 2, ID_WORKER, KindWork) && s.Valid() && s.Added(ID_WORKER, 1000, spine[0], spine)
    ensures fresh(TaskObject(s.currentTcb.task))
    ensures forall i :: 0 <= i < |spine| ==> fresh(spine[i]) && fresh(spine[i].a2)
    ensures s.currentTcb.task.Worker? && s.currentTcb.state == STATE_SUSPENDED_RUNNABLE
    ensures s.currentTcb.task.worker.v1 == ID_HANDLER_A && s.currentTcb.task.worker.v2 == 0
  {
    var queue;
    queue, spine := WorkPackets(s);
    s.AddWorkerTask(ID_WORKER, 1000, queue, spine);
  }

  /** The worker's lines of the set-up. */
  method AddWorker(s: Scheduler)
    requires s.Valid() && Chain(s, ID_WORKER)
    modifies s, s.blocks
    ensures s.Valid() && Chain(s, ID_WORKER + 1) && fresh(s.Repr - old(s.Repr))
    ensures s.queueCount == old(s.queueCount) && s.holdCount == old(s.holdCount)
    ensures Initial(s.Block(ID_WORKER), ID_WORKER)
    ensures forall i :: 0 <= i < NUMBER_OF_IDS && i != ID_WORKER ==> s.Block(i) == old(s.Block(i))
  {
    assert s.Block(ID_WORKER) == null;
    ghost var spine := EnlistWorker(s);
    FreshGrowth(old(s.Repr), s.Repr, {s.currentTcb, TaskObject(s.currentTcb.task)}, spine);
  }

  /** The handler's three device packets addressed to `device`, then
      addHandlerTask under `id` with priority 1000 times the id. */
  method EnlistHandler(s: Scheduler, id: int, device: int) returns (ghost spine: seq<Packet>)
    requires s.Valid() && 0 <= id < NUMBER_OF_IDS && s.Block(id) == null
    modifies s, s.blocks
    ensures Packets(spine, 3, device, KindDevice) && s.Valid() && s.Added(id, 1000 * id, spine[0], spine)
    ensures fresh(TaskObject(s.currentTcb.task))
    ensures forall i :: 0 <= i < |spine| ==> fresh(spine[i]) && fresh(spine[i].a2)
    ensures s.currentTcb.task.Handler? && Pristine(s.currentTcb.task)
    ensures s.currentTcb.state == STATE_SUSPENDED_RUNNABLE
  {
    var queue;
    queue, spine := DevicePackets(s, device);
    s.AddHandlerTask(id, 1000 * id, queue, spine);
  }

  /** A handler's lines of the set-up, with the packets for its device. */
  method AddHandler(s: Scheduler, id: int)
    requires s.Valid() && (id == ID_HANDLER_A || id == ID_HANDLER_B) && Chain(s, id)
    modifies s, s.blocks
    ensures s.Valid() && Chain(s, id + 1) && fresh(s.Repr - old(s.Repr))
    ensures s.queueCount == old(s.queueCount) && s.holdCount == old(s.holdCount)
    ensures Initial(s.Block(id), id)
    ensures forall i :: 0 <= i < NUMBER_OF_IDS && i != id ==> s.Block(i) == old(s.Block(i))
  {
    assert s.Block(id) == null;
    ghost var spine := EnlistHandler(s, id, DeviceFor(id));
    FreshGrowth(old(s.Repr), s.Repr, {s.currentTcb, TaskObject(s.currentTcb.task)}, spine);
  }

  /** addDeviceTask(id, 1000 * id, null): a device with an empty queue. */
  method AddDevice(s: Scheduler, id: int)
    requires s.Valid() && (id == ID_DEVICE_A || id == ID_DEVICE_B) && Chain(s, id)
    modifies s, s.blocks
    ensures s.Valid() && Chain(s, id + 1) && fresh(s.Repr - old(s.Repr))
    ensures s.queueCount == old(s.queueCount) && s.holdCount == old(s.holdCount)
    ensures Initial(s.Block(id), id)
    ensures forall i :: 0 <= i < NUMBER_OF_IDS && i != id ==> s.Block(i) == old(s.Block(i))
  {
    assert s.Block(id) == null;
    s.AddDeviceTask(id, 1000 * id, null, []);
    FreshGrowth(old(s.Repr), s.Repr, {s.currentTcb, TaskObject(s.currentTcb.task)}, []);
  }

  /** The set-up's lines for id `n`: the idle task, the worker, a handler or a
      device. */
  method AddNext(s: Scheduler, n: nat)
    requires s.Valid() && Chain(s, n) && n < NUMBER_OF_IDS
    modifies s, s.blocks
    ensures s.Valid() && Chain(s, n + 1) && fresh(s.Repr - old(s.Repr))
    ensures s.queueCount == old(s.queueCount) && s.holdCount == old(s.holdCount)
    ensures Initial(s.Block(n), n)
    ensures forall i :: 0 <= i < NUMBER_OF_IDS && i != n ==> s.Block(i) == old(s.Block(i))
  {
    if n == ID_IDLE {
      AddIdle(s);
    } else if n == ID_WORKER {
      AddWorker(s);
    } else if n == ID_HANDLER_A || n == ID_HANDLER_B {
      AddHandler(s, n);
    } else {
      AddDevice(s, n);
    }
  }

  /** The set-up's lines for the ids from `n` on, in order of id: afterwards every
      id holds its block, the blocks added are in their initial states, and the
      blocks under the ids below `n` are the ones there before. */
  method AddFrom(s: Scheduler, n: nat)
    requires s.Valid() && Chain(s, n)
    modifies s, s.blocks
    ensures s.Valid() && Chain(s, NUMBER_OF_IDS) && fresh(s.Repr - old(s.Repr))
    ensures s.queueCount == old(s.queueCount) && s.holdCount == old(s.holdCount)
    ensures forall i :: n <= i < NUMBER_OF_IDS ==> Initial(s.Block(i), i)
    ensures forall i :: 0 <= i < n ==> s.Block(i) == old(s.Block(i))
    decreases NUMBER_OF_IDS - n
  {
    if n < NUMBER_OF_IDS {
      AddNext(s, n);
      assert fresh(s.Repr - old(s.Repr));
      ghost var t := s.Block(n);
      AddFrom(s, n + 1);
      assert s.Block(n) == t && Initial(t, n);
    }
  }

  /** The set-up of runRichards: every id holds a block, and the list runs from
      device B down to the idle task through blocks of priorities 5000, 4000, ...,
      0; each block is in its initial state; nothing has been queued or held yet. */
  method Setup() returns (s: Scheduler)
    ensures fresh(s) && fresh(s.Repr) && s.Valid() && s.queueCount == 0 && s.holdCount == 0
    ensures Chain(s, NUMBER_OF_IDS)
    ensures forall i :: 0 <= i < NUMBER_OF_IDS ==> Initial(s.Block(i), i)
  {
    s := new Scheduler();
    AddFrom(s, 0);
  }

  /** runRichards, with the walk of the scheduler bounded by `fuel` steps; `s` is
      the scheduler it ran. The run is cut short exactly when a block is still
      current after `fuel` steps; otherwise the benchmark passes exactly when both
      counters reach their expected totals, and a failure reports the counters it
      found. */
  method RunRichards(fuel: nat) returns (v: Verdict, s: Scheduler)
    ensures s.Valid() && s.queueCount >= 0 && s.holdCount >= 0
    ensures v.OutOfSteps? <==> s.currentTcb != null
    ensures v.Passed? <==>
      s.currentTcb == null &&
      s.queueCount == EXPECTED_QUEUE_COUNT && s.holdCount == EXPECTED_HOLD_COUNT
    ensures v.Failed? ==>
      s.currentTcb == null && v.queueCount == s.queueCount && v.holdCount == s.holdCount &&
      (v.queueCount != EXPECTED_QUEUE_COUNT || v.holdCount != EXPECTED_HOLD_COUNT)
  {
    s := Setup();
    var finished := s.Schedule(fuel);
    if !finished {
      return OutOfSteps, s;
    }
    if s.queueCount != EXPECTED_QUEUE_COUNT || s.holdCount != EXPECTED_HOLD_COUNT {
      return Failed(s.queueCount, s.holdCount), s;
    }
    return Passed, s;
  }
}
