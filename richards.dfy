/** The Richards benchmark: a priority-preemptive, cooperative scheduler that passes
    packets among six simulated tasks (an idle task, a worker, two handlers and two
    devices). Objects the program updates in place are classes here; the behaviour
    of a task control block is tagged by the `Task` datatype. */
module Richards {
  import opened TaskState
  import opened Payload
  import opened PacketQueues

  const COUNT: int := 1000
  const EXPECTED_QUEUE_COUNT: int := 2322
  const EXPECTED_HOLD_COUNT: int := 928

  const ID_IDLE: int := 0
  const ID_WORKER: int := 1
  const ID_HANDLER_A: int := 2
  const ID_HANDLER_B: int := 3
  const ID_DEVICE_A: int := 4
  const ID_DEVICE_B: int := 5
  const NUMBER_OF_IDS: nat := 6

  /** The scheduler's `currentId` before the first dispatch (null in the program);
      like every id outside 0..5 it names no task control block. */
  const NO_ID: int := -1

  // ---------------------------------------------------------------------------
  // Task behaviours: one tag per kind of task (the program dispatches `run` on the
  // task object's prototype)

  datatype Task =
    | Idle(idle: IdleTask)
    | Device(device: DeviceTask)
    | Worker(worker: WorkerTask)
    | Handler(handler: HandlerTask)

  function TaskObject(task: Task): object {
    match task
    case Idle(t) => t
    case Device(t) => t
    case Worker(t) => t
    case Handler(t) => t
  }

  function TaskScheduler(task: Task): Scheduler {
    match task
    case Idle(t) => t.scheduler
    case Device(t) => t.scheduler
    case Worker(t) => t.scheduler
    case Handler(t) => t.scheduler
  }

  /** The device task of `task`, as a frame. */
  function DeviceOf(task: Task): set<DeviceTask> {
    if task.Device? then {task.device} else {}
  }

  /** The handler task of `task`, as a frame. */
  function HandlerOf(task: Task): set<HandlerTask> {
    if task.Handler? then {task.handler} else {}
  }

  /** The packets a task keeps in its own fields. */
  ghost function TaskPackets(task: Task): set<Packet>
    reads DeviceOf(task)`v1, HandlerOf(task)`workSpine, HandlerOf(task)`deviceSpine
  {
    match task
    case Idle(_) => {}
    case Worker(_) => {}
    case Device(d) => if d.v1 == null then {} else {d.v1}
    case Handler(h) => (set p | p in h.workSpine) + (set p | p in h.deviceSpine)
  }

  /** The packets kept by the task of the block registered under `id` are well-formed
      and record that task as their holder. */
  ghost predicate TaskValid(task: Task, id: int)
    reads DeviceOf(task)`v1, HandlerOf(task)`v1, HandlerOf(task)`v2
    reads HandlerOf(task)`workSpine, HandlerOf(task)`deviceSpine
    reads TaskPackets(task)`link, TaskPackets(task)`holder
  {
    match task
    case Idle(_) => true
    case Worker(_) => true
    case Device(d) => d.v1 == null || (d.v1.a2.Length == DATA_SIZE && d.v1.holder == DeviceSlot(id))
    case Handler(h) =>
      IsQueue(h.v1, h.workSpine) && HeldBy(h.workSpine, WorkList(id)) &&
      IsQueue(h.v2, h.deviceSpine) && HeldBy(h.deviceSpine, DeviceList(id))
  }

  /** A task as its constructor leaves it: it keeps no packet. */
  ghost predicate Pristine(task: Task)
    reads DeviceOf(task)`v1, HandlerOf(task)`v1, HandlerOf(task)`v2
    reads HandlerOf(task)`workSpine, HandlerOf(task)`deviceSpine
  {
    match task
    case Idle(_) => true
    case Worker(_) => true
    case Device(d) => d.v1 == null
    case Handler(h) => h.v1 == null && h.v2 == null && h.workSpine == [] && h.deviceSpine == []
  }

  lemma PristineValid(task: Task, id: int)
    requires Pristine(task)
    ensures TaskPackets(task) == {} && TaskValid(task, id)
  {
  }

  // ---------------------------------------------------------------------------
  // Task control blocks

  class TaskControlBlock {
    const link: TaskControlBlock?
    const id: int
    const priority: int
    var queue: Packet?
    ghost var spine: seq<Packet>
    const task: Task
    var state: State

    /** The inbound queue is well-formed, and a block whose RUNNABLE bit is set has a
        packet waiting. */
    ghost predicate Valid()
      reads this`queue, this`state, this`spine, spine`link
    {
      IsQueue(queue, spine) && (state & STATE_RUNNABLE != 0 ==> queue != null)
    }

    /** A new block is SUSPENDED, or SUSPENDED_RUNNABLE when packets are waiting. */
    constructor (link: TaskControlBlock?, id: int, priority: int, queue: Packet?,
                 ghost spine: seq<Packet>, task: Task)
      requires IsQueue(queue, spine)
      ensures this.link == link && this.id == id && this.priority == priority
      ensures this.queue == queue && this.spine == spine && this.task == task
      ensures state == if queue == null then STATE_SUSPENDED else STATE_SUSPENDED_RUNNABLE
      ensures Valid()
    {
      this.link := link;
      this.id := id;
      this.priority := priority;
      this.queue := queue;
      this.spine := spine;
      this.task := task;
      if queue == null {
        state := STATE_SUSPENDED;
      } else {
        state := STATE_SUSPENDED_RUNNABLE;
      }
    }

    /** The scheduler this block's task reports to. */
    function Sched(): Scheduler {
      TaskScheduler(task)
    }

    method SetRunning()
      requires Valid()
      modifies this`state
      ensures Valid() && state == STATE_RUNNING
    {
      state := STATE_RUNNING;
    }

    method MarkAsNotHeld()
      requires Valid()
      modifies this`state
      ensures Valid() && state == MarkNotHeld(old(state))
    {
      state := MarkNotHeld(state);
    }

    method MarkAsHeld()
      requires Valid()
      modifies this`state
      ensures Valid() && state == MarkHeld(old(state))
    {
      state := MarkHeld(state);
    }

    predicate IsHeldOrSuspended()
      reads this
    {
      TaskState.IsHeldOrSuspended(state)
    }

    method MarkAsSuspended()
      requires Valid()
      modifies this`state
      ensures Valid() && state == MarkSuspended(old(state))
    {
      state := MarkSuspended(state);
    }

    method MarkAsRunnable()
      requires Valid() && queue != null
      modifies this`state
      ensures Valid() && state == MarkRunnable(old(state))
    {
      state := MarkRunnable(state);
    }

    /** The first half of `run`: in state SUSPENDED_RUNNABLE the head packet leaves the
        queue (its link is left as it was) and the block becomes RUNNING when the
        queue is now empty, RUNNABLE otherwise; in any other state no packet is
        taken and nothing changes. */
    method TakePacket() returns (packet: Packet?)
      requires Valid()
      modifies this`queue, this`spine, this`state
      ensures Valid()
      ensures old(state) == STATE_SUSPENDED_RUNNABLE ==>
        old(spine) != [] && packet == old(spine)[0] && spine == old(spine)[1..] &&
        packet !in spine && state == (if spine == [] then STATE_RUNNING else STATE_RUNNABLE)
      ensures old(state) != STATE_SUSPENDED_RUNNABLE ==>
        packet == null && spine == old(spine) && queue == old(queue) && state == old(state)
    {
      if state == STATE_SUSPENDED_RUNNABLE {
        PopQueue(queue, spine);
        packet := queue;
        queue := packet.link;
        spine := spine[1..];
        if queue == null {
          state := STATE_RUNNING;
        } else {
          state := STATE_RUNNABLE;
        }
      } else {
        packet := null;
      }
    }

    /** takePacket for the running block: the packet taken leaves the inbound queue
        and is in transit to the task's behaviour. */
    method Receive() returns (packet: Packet?)
      requires Sched().Valid() && Sched().currentTcb == this && Sched().currentId == id
      modifies this`queue, this`spine, this`state, First(spine)`holder
      ensures Sched().Valid() && Sched().InTransit(packet)
      ensures old(state) == STATE_SUSPENDED_RUNNABLE ==>
        old(spine) != [] && packet == old(spine)[0] && spine == old(spine)[1..] &&
        state == (if spine == [] then STATE_RUNNING else STATE_RUNNABLE)
      ensures old(state) != STATE_SUSPENDED_RUNNABLE ==>
        packet == null && spine == old(spine) && state == old(state)
    {
      var s := Sched();
      packet := TakePacket();
      if packet != null {
        packet.holder := Transit;
        Received(packet);
      }
    }

    /** The head packet, taken off the queue of the running block and in transit,
        leaves the scheduler's invariant intact. */
    twostate lemma Received(packet: Packet)
      requires old(Sched().Valid()) && old(Sched().currentTcb) == this && old(Sched().currentId) == id
      requires unchanged(Sched(), Sched().blocks) && unchanged(old(Sched().Tcbs) - {this})
      requires unchanged(old(Sched().Devices)) && unchanged(old(Sched().Handlers)) && Valid()
      requires old(spine) != [] && packet == old(spine)[0] && spine == old(spine)[1..] && packet !in spine
      requires forall p :: p in old(Sched().Packets) && p != packet ==> unchanged(p)
      requires packet.link == old(packet.link) && packet.holder == Transit
      ensures Sched().Valid() && Sched().InTransit(packet)
    {
      var s := Sched();
      assert old(s.Placed(this, id)) && old(s.Owned(this)) && old(s.SlotValid(this, id));
      assert old(TaskValid(task, id));
      assert old(packet.holder) == Inbound(id);
      assert packet !in old(TaskPackets(task));
      assert TaskValid(task, id);
      s.StepKeepsValid(id);
    }

    /** run: takes the waiting packet, if any, and hands it to the task's behaviour;
        the behaviour's answer is the next block the scheduler visits. */
    method Run() returns (next: TaskControlBlock?)
      requires Sched().Valid() && Sched().currentTcb == this && Sched().currentId == id
      modifies Sched().Repr
      ensures Sched().Valid() && Sched().Stepped(next)
    {
      var s := Sched();
      assert s.Placed(this, id) && s.Owned(this);
      var packet := Receive();
      match task
      case Idle(t) =>
        s.ServiceFrame(ID_DEVICE_A);
        s.ServiceFrame(ID_DEVICE_B);
        next := t.Run(packet);
      case Device(t) =>
        assert TaskPackets(task) <= s.Packets;
        s.ServiceFrame(IdOf(t.v1));
        next := t.Run(packet);
      case Worker(t) =>
        s.ServiceFrame(OtherHandler(t.v1));
        next := t.Run(packet);
      case Handler(t) => next := t.Run(packet);
    }

    /** checkPriorityAdd: admits `packet` at the tail of the queue. On an empty queue
        the block also becomes RUNNABLE and preempts `task` exactly when its
        priority is strictly higher; on a non-empty queue the state is kept and
        `task` goes on. */
    method CheckPriorityAdd(task: TaskControlBlock, packet: Packet) returns (r: TaskControlBlock)
      requires Valid() && packet !in spine && packet.a2.Length == DATA_SIZE && packet.link == null
      modifies this`queue, this`spine, this`state, packet`link, Last(spine)`link
      ensures Valid()
      ensures spine == old(spine) + [packet] && packet.link == null
      ensures old(queue) == null ==>
        state == MarkRunnable(old(state)) && r == (if priority > task.priority then this else task)
      ensures old(queue) != null ==> state == old(state) && r == task
    {
      if queue == null {
        queue := packet;
        spine := [packet];
        MarkAsRunnable();
        if priority > task.priority {
          return this;
        }
      } else {
        queue := packet.AddTo(queue, spine);
        spine := spine + [packet];
      }
      r := task;
    }
  }

  // ---------------------------------------------------------------------------
  // The scheduler

  class Scheduler {
    var queueCount: int
    var holdCount: int
    const blocks: array<TaskControlBlock?>
    var list: TaskControlBlock?
    var currentTcb: TaskControlBlock?
    var currentId: int
    /** Every object of the simulation except the table of blocks. */
    ghost var Repr: set<object>
    /** The registered blocks, the packets, and the device and handler tasks. */
    ghost var Tcbs: set<TaskControlBlock>
    ghost var Packets: set<Packet>
    ghost var Devices: set<DeviceTask>
    ghost var Handlers: set<HandlerTask>

    constructor ()
      ensures Valid() && fresh(Repr) && fresh(blocks)
      ensures queueCount == 0 && holdCount == 0
      ensures list == null && currentTcb == null && currentId == NO_ID
      ensures forall i :: 0 <= i < NUMBER_OF_IDS ==> blocks[i] == null
      ensures Tcbs == {} && Packets == {} && Devices == {} && Handlers == {}
    {
      queueCount := 0;
      holdCount := 0;
      blocks := new TaskControlBlock?[NUMBER_OF_IDS](_ => null);
      list := null;
      currentTcb := null;
      currentId := NO_ID;
      Repr := {this};
      Tcbs := {};
      Packets := {};
      Devices := {};
      Handlers := {};
    }

    /** `blocks[id]`; outside the table the program reads undefined, which it treats
        like null. */
    function Block(id: int): (t: TaskControlBlock?)
      reads blocks
      ensures t != null ==> 0 <= id < blocks.Length && blocks[id] == t
      ensures 0 <= id < blocks.Length ==> t == blocks[id]
    {
      if 0 <= id < blocks.Length then blocks[id] else null
    }

    function Slot(id: int): set<TaskControlBlock>
      reads blocks
    {
      if Block(id) == null then {} else {Block(id)}
    }

    /** The tail of the inbound queue of the block registered under `id`. */
    ghost function TailAt(id: int): set<Packet>
      reads blocks, Slot(id)
    {
      if Block(id) == null then {} else Last(Block(id).spine)
    }

    function Current(): set<TaskControlBlock>
      reads this`currentTcb
    {
      if currentTcb == null then {} else {currentTcb}
    }

    ghost predicate Registered(t: TaskControlBlock)
      reads blocks
    {
      Block(t.id) == t
    }

    /** Block `t` is registered under `i`, reports to this scheduler, links to a
        registered block or to null, and it and its task belong to the simulation. */
    ghost predicate Placed(t: TaskControlBlock, i: int)
      reads this`Repr, this`Tcbs, this`Devices, this`Handlers, blocks
    {
      t in Tcbs && TaskObject(t.task) in Repr &&
      DeviceOf(t.task) <= Devices && HandlerOf(t.task) <= Handlers &&
      t.id == i && TaskScheduler(t.task) == this && (t.link == null || Registered(t.link))
    }

    /** The part of the invariant that only setup changes: the six slots, the sets of
        objects, one task object per block, and the list head registered. */
    ghost predicate Structure()
      reads this`Repr, this`Tcbs, this`Packets, this`Devices, this`Handlers, this`list, blocks
    {
      this in Repr && blocks !in Repr && blocks.Length == NUMBER_OF_IDS &&
      (forall t :: t in Tcbs ==> t in Repr) &&
      (forall d :: d in Devices ==> d in Repr) &&
      (forall h :: h in Handlers ==> h in Repr) &&
      (forall p :: p in Packets ==> p in Repr && p.a2 in Repr && p.a2.Length == DATA_SIZE) &&
      (forall i :: 0 <= i < NUMBER_OF_IDS && blocks[i] != null ==> Placed(blocks[i], i)) &&
      (forall i, j :: 0 <= i < j < NUMBER_OF_IDS && blocks[i] != null && blocks[j] != null ==>
        TaskObject(blocks[i].task) != TaskObject(blocks[j].task)) &&
      (list == null || Registered(list))
    }

    /** What block `t` and its task hold are packets of the simulation. */
    ghost predicate Owned(t: TaskControlBlock)
      reads this`Packets, t`spine, DeviceOf(t.task)`v1
      reads HandlerOf(t.task)`workSpine, HandlerOf(t.task)`deviceSpine
    {
      (forall p :: p in t.spine ==> p in Packets) && TaskPackets(t.task) <= Packets
    }

    /** The inbound queue of block `t`, registered under `i`, and the packets its task
        keeps are well-formed, and each packet records where it is held. */
    ghost predicate SlotValid(t: TaskControlBlock, i: int)
      reads t`queue, t`state, t`spine, t.spine`link, t.spine`holder
      reads DeviceOf(t.task)`v1, HandlerOf(t.task)`v1, HandlerOf(t.task)`v2
      reads HandlerOf(t.task)`workSpine, HandlerOf(t.task)`deviceSpine
      reads TaskPackets(t.task)`link, TaskPackets(t.task)`holder
    {
      t.Valid() && HeldBy(t.spine, Inbound(i)) && TaskValid(t.task, i)
    }

    /** The scheduler's invariant: the structure, the cursor registered, and every
        registered block and its task well-formed. Since each packet records one
        holder, no packet is held in two places. */
    ghost predicate Valid()
      reads this`Repr, this`Tcbs, this`Packets, this`Devices, this`Handlers, this`list
      reads this`currentTcb, blocks
      reads Tcbs`queue, Tcbs`state, Tcbs`spine, Packets`link, Packets`holder, Devices`v1
      reads Handlers`v1, Handlers`v2, Handlers`workSpine, Handlers`deviceSpine
    {
      Structure() &&
      (currentTcb == null || Registered(currentTcb)) &&
      (forall i :: 0 <= i < NUMBER_OF_IDS && blocks[i] != null ==> Owned(blocks[i])) &&
      (forall i :: 0 <= i < NUMBER_OF_IDS && blocks[i] != null ==> SlotValid(blocks[i], i))
    }

    /** A packet of the simulation that no queue or task holds, on its way from one
        holder to the next. */
    ghost predicate InTransit(p: Packet?)
      reads this`Packets, if p == null then {} else {p}
    {
      p == null || (p.holder == Transit && p in Packets)
    }

    /** The block now running, under the id the scheduler recorded, has behaviour
        `task`. */
    ghost predicate Running(task: Task)
      reads this`currentTcb, this`currentId
    {
      currentTcb != null && currentTcb.task == task && currentTcb.id == currentId
    }

    /** The sets of objects and the head of the list, which only setup changes. */
    ghost function Layout(): (set<object>, set<TaskControlBlock>, set<Packet>, set<DeviceTask>, set<HandlerTask>, TaskControlBlock?)
      reads this
    {
      (Repr, Tcbs, Packets, Devices, Handlers, list)
    }

    /** What every step of a running task keeps: the objects, the cursor and
        `currentId`; neither counter goes down, and `next` is null or registered. */
    twostate predicate Stepped(new next: TaskControlBlock?)
      reads this, blocks
    {
      Layout() == old(Layout()) && currentTcb == old(currentTcb) && currentId == old(currentId) &&
      queueCount >= old(queueCount) && holdCount >= old(holdCount) &&
      (next == null || Registered(next))
    }

    /** The effect of queue(p) on a packet addressed to `dest`: nothing for an id with
        no block; otherwise one more queued packet, `p` unlinked and restamped with
        the sender's id, then admitted by checkPriorityAdd of the target. (What every
        step keeps is `Stepped`.) */
    twostate predicate Queued(p: Packet, dest: int, new r: TaskControlBlock?)
      reads this, blocks, p, Slot(dest)
    {
      var t := Block(dest);
      holdCount == old(holdCount) &&
      if t == null then
        r == null && queueCount == old(queueCount)
      else
        currentTcb != null && old(allocated(t)) &&
        queueCount == old(queueCount) + 1 && p.link == null && p.id == old(currentId) &&
        t.spine == old(t.spine) + [p] &&
        t.state == (if old(t.queue) == null then MarkRunnable(old(t.state)) else old(t.state)) &&
        r == (if old(t.queue) == null && t.priority > currentTcb.priority then t else currentTcb)
    }

    /** The effect of release(id): nothing for an id with no block; otherwise that
        block loses HELD and preempts the current block exactly when its priority
        is strictly higher. */
    twostate predicate Released(id: int, new r: TaskControlBlock?)
      reads this, blocks, Slot(id)
    {
      var t := Block(id);
      queueCount == old(queueCount) && holdCount == old(holdCount) &&
      if t == null then
        r == null
      else
        currentTcb != null && old(allocated(t)) && t.state == MarkNotHeld(old(t.state)) &&
        r == (if t.priority > currentTcb.priority then t else currentTcb)
    }

    /** The effect of holdCurrent(): one more hold, the current block HELD, and the
        walk goes on with its successor in the list. */
    twostate predicate Held(new r: TaskControlBlock?)
      reads this, Current()
    {
      var t := currentTcb;
      t != null && old(allocated(t)) && holdCount == old(holdCount) + 1 && queueCount == old(queueCount) &&
      t.state == MarkHeld(old(t.state)) && r == t.link
    }

    /** The effect of suspendCurrent(): the current block SUSPENDED and visited again. */
    twostate predicate Suspended(new r: TaskControlBlock?)
      reads this, Current()
    {
      var t := currentTcb;
      t != null && old(allocated(t)) && holdCount == old(holdCount) && queueCount == old(queueCount) &&
      t.state == MarkSuspended(old(t.state)) && r == t
    }

    /** What the services may change belongs to the simulation: the current block,
        the block registered under `id` and the tail of its inbound queue. */
    lemma ServiceFrame(id: int)
      requires Valid()
      ensures Current() <= Repr && Slot(id) <= Repr && TailAt(id) <= Repr
    {
      if Block(id) != null {
        assert Placed(Block(id), id) && Owned(Block(id));
      }
    }

    // -- setup -----------------------------------------------------------------

    /** addTask: a new block for `task`, in front of the list, registered under `id`
        and made current; the packets of `queue` become its inbound queue. */
    method AddTask(id: int, priority: int, queue: Packet?, ghost spine: seq<Packet>, task: Task)
      requires Valid()
      requires 0 <= id < NUMBER_OF_IDS && blocks[id] == null
      requires TaskScheduler(task) == this && TaskObject(task) !in Repr && Pristine(task)
      requires IsQueue(queue, spine)
      requires forall p :: p in spine ==> p !in Repr && p.a2 !in Repr
      modifies this, blocks, spine`holder
      ensures Valid()
      ensures fresh(currentTcb) && currentTcb != null && list == currentTcb && blocks[id] == currentTcb
      ensures currentTcb.link == old(list) && currentTcb.id == id && currentTcb.priority == priority
      ensures currentTcb.queue == queue && currentTcb.spine == spine && currentTcb.task == task
      ensures currentTcb.state == if queue == null then STATE_SUSPENDED else STATE_SUSPENDED_RUNNABLE
      ensures forall i :: 0 <= i < NUMBER_OF_IDS && i != id ==> blocks[i] == old(blocks[i])
      ensures queueCount == old(queueCount) && holdCount == old(holdCount) && currentId == old(currentId)
      ensures Repr == old(Repr) + {currentTcb, TaskObject(task)} + (set p | p in spine) + (set p | p in spine :: p.a2)
      ensures Tcbs == old(Tcbs) + {currentTcb} && Packets == old(Packets) + (set p | p in spine)
      ensures Devices == old(Devices) + DeviceOf(task) && Handlers == old(Handlers) + HandlerOf(task)
    {
      Adopt(spine, Inbound(id));
      var t := new TaskControlBlock(list, id, priority, queue, spine, task);
      Install(t);
    }

    /** What each add method leaves: a new block, current and at the head of the
        list in front of the old head, registered under `id` with `priority` and
        the inbound queue `queue` of packets `spine`; every other slot and both
        counters as they were; the block, its task and its packets join the
        simulation's objects. */
    twostate predicate Added(id: int, priority: int, new queue: Packet?, new spine: seq<Packet>)
      reads this, blocks, Current()
    {
      var t := currentTcb;
      t != null && fresh(t) && list == t && Block(id) == t &&
      t.link == old(list) && t.id == id && t.priority == priority &&
      t.queue == queue && t.spine == spine &&
      (forall i :: 0 <= i < NUMBER_OF_IDS && i != id ==> Block(i) == old(Block(i))) &&
      queueCount == old(queueCount) && holdCount == old(holdCount) && currentId == old(currentId) &&
      Repr == old(Repr) + {t, TaskObject(t.task)} + Objects(spine)
    }

    /** addRunningTask: addTask, then the new block is RUNNING. */
    method AddRunningTask(id: int, priority: int, queue: Packet?, ghost spine: seq<Packet>, task: Task)
      requires Valid()
      requires 0 <= id < NUMBER_OF_IDS && blocks[id] == null
      requires TaskScheduler(task) == this && TaskObject(task) !in Repr && Pristine(task)
      requires IsQueue(queue, spine)
      requires forall p :: p in spine ==> p !in Repr && p.a2 !in Repr
      modifies this, blocks, spine`holder
      ensures Valid() && Added(id, priority, queue, spine)
      ensures currentTcb.task == task && currentTcb.state == STATE_RUNNING
    {
      AddTask(id, priority, queue, spine, task);
      label added:
      currentTcb.SetRunning();
      StateChangeKeepsValid@added(id);
    }

    /** addIdleTask: an idle task with seed 1 that counts down from `count`, added
        RUNNING. */
    method AddIdleTask(id: int, priority: int, queue: Packet?, ghost spine: seq<Packet>, count: int)
      requires Valid() && 0 <= id < NUMBER_OF_IDS && blocks[id] == null
      requires IsQueue(queue, spine) && forall p :: p in spine ==> p !in Repr && p.a2 !in Repr
      modifies this, blocks, spine`holder
      ensures Valid() && Added(id, priority, queue, spine) && fresh(TaskObject(currentTcb.task))
      ensures currentTcb.state == STATE_RUNNING
      ensures currentTcb.task.Idle? && currentTcb.task.idle.v1 == 1 && currentTcb.task.idle.count == count
    {
      var task := new IdleTask(this, 1, count);
      AddRunningTask(id, priority, queue, spine, Idle(task));
    }

    /** addWorkerTask: a worker that addresses handler A first, with counter 0. */
    method AddWorkerTask(id: int, priority: int, queue: Packet?, ghost spine: seq<Packet>)
      requires Valid() && 0 <= id < NUMBER_OF_IDS && blocks[id] == null
      requires IsQueue(queue, spine) && forall p :: p in spine ==> p !in Repr && p.a2 !in Repr
      modifies this, blocks, spine`holder
      ensures Valid() && Added(id, priority, queue, spine) && fresh(TaskObject(currentTcb.task))
      ensures currentTcb.state == if queue == null then STATE_SUSPENDED else STATE_SUSPENDED_RUNNABLE
      ensures currentTcb.task.Worker? && currentTcb.task.worker.v1 == ID_HANDLER_A
      ensures currentTcb.task.worker.v2 == 0
    {
      var task := new WorkerTask(this, ID_HANDLER_A, 0);
      AddTask(id, priority, queue, spine, Worker(task));
    }

    /** addHandlerTask: a handler with empty work and device lists. */
    method AddHandlerTask(id: int, priority: int, queue: Packet?, ghost spine: seq<Packet>)
      requires Valid() && 0 <= id < NUMBER_OF_IDS && blocks[id] == null
      requires IsQueue(queue, spine) && forall p :: p in spine ==> p !in Repr && p.a2 !in Repr
      modifies this, blocks, spine`holder
      ensures Valid() && Added(id, priority, queue, spine) && fresh(TaskObject(currentTcb.task))
      ensures currentTcb.state == if queue == null then STATE_SUSPENDED else STATE_SUSPENDED_RUNNABLE
      ensures currentTcb.task.Handler? && Pristine(currentTcb.task)
    {
      var task := new HandlerTask(this);
      AddTask(id, priority, queue, spine, Handler(task));
    }

    /** addDeviceTask: a device that keeps no packet. */
    method AddDeviceTask(id: int, priority: int, queue: Packet?, ghost spine: seq<Packet>)
      requires Valid() && 0 <= id < NUMBER_OF_IDS && blocks[id] == null
      requires IsQueue(queue, spine) && forall p :: p in spine ==> p !in Repr && p.a2 !in Repr
      modifies this, blocks, spine`holder
      ensures Valid() && Added(id, priority, queue, spine) && fresh(TaskObject(currentTcb.task))
      ensures currentTcb.state == if queue == null then STATE_SUSPENDED else STATE_SUSPENDED_RUNNABLE
      ensures currentTcb.task.Device? && Pristine(currentTcb.task)
    {
      var task := new DeviceTask(this);
      AddTask(id, priority, queue, spine, Device(task));
    }

    /** The registration half of addTask: block `t`, new to the simulation, goes in
        front of the list, into slot `t.id` and under the cursor. */
    method Install(t: TaskControlBlock)
      requires Valid() && 0 <= t.id < NUMBER_OF_IDS && blocks[t.id] == null
      requires t.Valid() && HeldBy(t.spine, Inbound(t.id)) && t.link == list && t !in Repr
      requires TaskScheduler(t.task) == this && TaskObject(t.task) !in Repr && Pristine(t.task)
      requires forall p :: p in t.spine ==> p !in Repr && p.a2 !in Repr
      modifies this`currentTcb, this`list, blocks
      modifies this`Repr, this`Tcbs, this`Packets, this`Devices, this`Handlers
      ensures Valid() && list == t && currentTcb == t && blocks[t.id] == t
      ensures forall i :: 0 <= i < NUMBER_OF_IDS && i != t.id ==> blocks[i] == old(blocks[i])
      ensures Repr == old(Repr) + {t, TaskObject(t.task)} + (set p | p in t.spine) + (set p | p in t.spine :: p.a2)
      ensures Tcbs == old(Tcbs) + {t} && Packets == old(Packets) + (set p | p in t.spine)
      ensures Devices == old(Devices) + DeviceOf(t.task) && Handlers == old(Handlers) + HandlerOf(t.task)
    {
      currentTcb, list := t, t;
      blocks[t.id] := t;
      Enroll(t);
      PristineValid(t.task, t.id);
      AddedKeepsValid(t);
    }

    /** Adds block `t`, its task and the packets of its queue to the simulation's
        objects. */
    ghost method Enroll(t: TaskControlBlock)
      modifies this`Repr, this`Tcbs, this`Packets, this`Devices, this`Handlers
      ensures Repr == old(Repr) + {t, TaskObject(t.task)} + (set p | p in t.spine) + (set p | p in t.spine :: p.a2)
      ensures Tcbs == old(Tcbs) + {t} && Packets == old(Packets) + (set p | p in t.spine)
      ensures Devices == old(Devices) + DeviceOf(t.task) && Handlers == old(Handlers) + HandlerOf(t.task)
    {
      Repr := Repr + {t, TaskObject(t.task)} + (set p | p in t.spine) + (set p | p in t.spine :: p.a2);
      Tcbs := Tcbs + {t};
      Packets := Packets + (set p | p in t.spine);
      Devices := Devices + DeviceOf(t.task);
      Handlers := Handlers + HandlerOf(t.task);
    }

    /** Records `h` as the holder of every packet of `spine`. */
    static ghost method Adopt(spine: seq<Packet>, h: Holder)
      modifies spine`holder
      ensures HeldBy(spine, h)
    {
      forall p | p in spine {
        p.holder := h;
      }
    }

    /** Registering a new block, whose queue holds packets new to the simulation and
        whose task is new too, keeps the invariant. */
    twostate lemma AddedKeepsValid(t: TaskControlBlock)
      requires old(Valid()) && 0 <= t.id < NUMBER_OF_IDS && old(blocks[t.id]) == null
      requires t !in old(Repr) && t.Valid() && HeldBy(t.spine, Inbound(t.id))
      requires TaskScheduler(t.task) == this && TaskObject(t.task) !in old(Repr)
      requires TaskPackets(t.task) == {} && TaskValid(t.task, t.id)
      requires forall p :: p in t.spine ==> p !in old(Repr) && p.a2 !in old(Repr)
      requires t.link == old(list) && list == t && currentTcb == t && blocks[t.id] == t
      requires forall i :: 0 <= i < NUMBER_OF_IDS && i != t.id ==> blocks[i] == old(blocks[i])
      requires Repr == old(Repr) + {t, TaskObject(t.task)} + (set p | p in t.spine) + (set p | p in t.spine :: p.a2)
      requires Tcbs == old(Tcbs) + {t} && Packets == old(Packets) + (set p | p in t.spine)
      requires Devices == old(Devices) + DeviceOf(t.task) && Handlers == old(Handlers) + HandlerOf(t.task)
      requires unchanged(old(Tcbs)) && unchanged(old(Packets))
      requires unchanged(old(Devices)) && unchanged(old(Handlers))
      ensures Valid()
    {
      AddedStructure(t);
      forall i | 0 <= i < NUMBER_OF_IDS && blocks[i] != null
        ensures Owned(blocks[i]) && SlotValid(blocks[i], i)
      {
        if i != t.id {
          var b := blocks[i];
          assert old(Placed(b, i)) && old(Owned(b)) && old(SlotValid(b, i));
        }
      }
    }

    twostate lemma AddedStructure(t: TaskControlBlock)
      requires old(Valid()) && 0 <= t.id < NUMBER_OF_IDS && old(blocks[t.id]) == null
      requires t !in old(Repr)
      requires TaskScheduler(t.task) == this && TaskObject(t.task) !in old(Repr)
      requires forall p :: p in t.spine ==> p !in old(Repr) && p.a2 !in old(Repr)
      requires t.link == old(list) && list == t && currentTcb == t && blocks[t.id] == t
      requires forall i :: 0 <= i < NUMBER_OF_IDS && i != t.id ==> blocks[i] == old(blocks[i])
      requires Repr == old(Repr) + {t, TaskObject(t.task)} + (set p | p in t.spine) + (set p | p in t.spine :: p.a2)
      requires Tcbs == old(Tcbs) + {t} && Packets == old(Packets) + (set p | p in t.spine)
      requires Devices == old(Devices) + DeviceOf(t.task) && Handlers == old(Handlers) + HandlerOf(t.task)
      requires forall p :: p in t.spine ==> p.a2.Length == DATA_SIZE
      ensures Structure()
    {
      assert old(Structure());
      forall i | 0 <= i < NUMBER_OF_IDS && blocks[i] != null
        ensures Placed(blocks[i], i)
      {
        if i != t.id {
          assert old(Placed(blocks[i], i));
        }
      }
      forall i, j | 0 <= i < j < NUMBER_OF_IDS && blocks[i] != null && blocks[j] != null
        ensures TaskObject(blocks[i].task) != TaskObject(blocks[j].task)
      {
        if i != t.id && j != t.id {
          assert old(TaskObject(blocks[i].task) != TaskObject(blocks[j].task));
        } else if i != t.id {
          assert old(Placed(blocks[i], i));
        } else {
          assert old(Placed(blocks[j], j));
        }
      }
    }

    // -- services for the running task -------------------------------------------

    /** release: clears HELD on the block registered under `id`. */
    method Release(id: int) returns (r: TaskControlBlock?)
      requires Valid() && currentTcb != null
      modifies Slot(id)`state
      ensures Valid() && Stepped(r) && Released(id, r)
    {
      var tcb := Block(id);
      if tcb != null {
        tcb.MarkAsNotHeld();
        StateChangeKeepsValid(id);
        r := if tcb.priority > currentTcb.priority then tcb else currentTcb;
      } else {
        r := null;
      }
    }

    /** holdCurrent. */
    method HoldCurrent() returns (r: TaskControlBlock?)
      requires Valid() && currentTcb != null
      modifies this`holdCount, Current()`state
      ensures Valid() && Stepped(r) && Held(r)
    {
      var t := currentTcb;
      holdCount := holdCount + 1;
      t.MarkAsHeld();
      StateChangeKeepsValid(t.id);
      return t.link;
    }

    /** A packet with holder `h` may change during a step of the task in slot `k`
        only when it is in transit or held by that slot. */
    static predicate Movable(h: Holder, k: int) {
      h.Transit? || h.id == k
    }

    /** Between the two states only the block in slot `k`, its task, and packets in
        transit or held by that slot changed anything the invariant reads. */
    twostate predicate OnlySlotChanged(k: int)
      reads this, blocks, Tcbs, Packets, Devices, Handlers
    {
      0 <= k < blocks.Length && old(blocks[k]) != null &&
      unchanged(this`Repr, this`Tcbs, this`Packets, this`Devices, this`Handlers) &&
      unchanged(this`list, this`currentTcb, blocks) &&
      unchanged(old(Tcbs) - {old(blocks[k])}) &&
      unchanged(old(Devices) - DeviceOf(old(blocks[k]).task)) &&
      unchanged(old(Handlers) - HandlerOf(old(blocks[k]).task)) &&
      forall p :: p in old(Packets) && !Movable(old(p.holder), k) ==>
        p.link == old(p.link) && p.holder == old(p.holder)
    }

    /** A step confined to slot `k` keeps the invariant when it leaves slot `k`
        well-formed. */
    twostate lemma StepKeepsValid(k: int)
      requires old(Valid()) && OnlySlotChanged(k)
      requires Owned(blocks[k]) && SlotValid(blocks[k], k)
      ensures Valid()
    {
      assert Structure() by {
        assert old(Structure());
      }
      forall i | 0 <= i < NUMBER_OF_IDS && blocks[i] != null
        ensures Owned(blocks[i]) && SlotValid(blocks[i], i)
      {
        if i != k {
          OtherSlotKept((k, i));
        }
      }
    }

    /** A step that changes none of the objects the invariant reads keeps it. */
    twostate lemma UntouchedKeepsValid()
      requires old(Valid()) && unchanged(this, blocks)
      requires unchanged(old(Tcbs)) && unchanged(old(Packets))
      requires unchanged(old(Devices)) && unchanged(old(Handlers))
      ensures Valid()
    {
      assert Structure() by {
        assert old(Structure());
      }
      forall i | 0 <= i < NUMBER_OF_IDS && blocks[i] != null
        ensures Owned(blocks[i]) && SlotValid(blocks[i], i)
      {
        var t := blocks[i];
        assert old(Placed(t, i)) && old(Owned(t)) && old(SlotValid(t, i));
      }
    }

    /** A change of the state of block `k` alone that leaves the block well-formed
        keeps the invariant. */
    twostate lemma StateChangeKeepsValid(k: int)
      requires old(Valid()) && 0 <= k < NUMBER_OF_IDS && old(blocks[k]) != null
      requires unchanged(this`Repr, this`Tcbs, this`Packets, this`Devices, this`Handlers)
      requires unchanged(this`list, this`currentTcb, blocks)
      requires unchanged(old(Tcbs) - {old(blocks[k])}) && unchanged(old(Packets))
      requires unchanged(old(Devices)) && unchanged(old(Handlers))
      requires blocks[k].queue == old(blocks[k].queue) && blocks[k].spine == old(blocks[k].spine)
      requires blocks[k].Valid()
      ensures Valid()
    {
      var t := blocks[k];
      assert old(Placed(t, k)) && old(Owned(t)) && old(SlotValid(t, k));
      StepKeepsValid(k);
    }

    /** Between the two states `packet`, which was in transit, was admitted at the tail
        of the inbound queue of the block whose holder it now records, and nothing
        else changed but that block and the link of the old tail. */
    twostate predicate Admitted(packet: Packet)
      reads this, blocks, Tcbs, Packets, Devices, Handlers, packet
    {
      old(Valid()) && old(InTransit(packet)) &&
      packet.holder.Inbound? && 0 <= packet.holder.id < NUMBER_OF_IDS &&
      blocks[packet.holder.id] != null &&
      unchanged(this`Repr, this`Tcbs, this`Packets, this`Devices, this`Handlers) &&
      unchanged(this`list, this`currentTcb, blocks) &&
      var t := blocks[packet.holder.id];
      unchanged(old(Tcbs) - {t}) && unchanged(old(Devices)) && unchanged(old(Handlers)) &&
      unchanged(old(Packets) - {packet} - Last(old(t.spine))) &&
      unchanged(Last(old(t.spine))`holder) &&
      t.spine == old(t.spine) + [packet]
    }

    /** Admitting a packet keeps the invariant. */
    twostate lemma AdmitKeepsValid(packet: Packet)
      requires Admitted(packet) && blocks[packet.holder.id].Valid()
      ensures Valid()
    {
      AdmittedSlotValid(packet);
      AdmittedOnlySlot(packet);
      StepKeepsValid(packet.holder.id);
    }

    twostate lemma AdmittedSlotValid(packet: Packet)
      requires Admitted(packet) && blocks[packet.holder.id].Valid()
      ensures Owned(blocks[packet.holder.id]) && SlotValid(blocks[packet.holder.id], packet.holder.id)
    {
      var k := packet.holder.id;
      var t := blocks[k];
      assert old(Placed(t, k)) && old(Owned(t)) && old(SlotValid(t, k));
      assert HeldBy(t.spine, Inbound(k));
      assert TaskValid(t.task, k);
    }

    twostate lemma AdmittedOnlySlot(packet: Packet)
      requires Admitted(packet)
      ensures OnlySlotChanged(packet.holder.id)
    {
      var k := packet.holder.id;
      var t := blocks[k];
      assert old(Placed(t, k)) && old(Owned(t)) && old(SlotValid(t, k));
    }

    /** Changing a packet in transit, but not its holder, keeps the invariant. */
    twostate lemma TransitKeepsValid(packet: Packet)
      requires old(Valid()) && old(InTransit(packet)) && packet.holder == old(packet.holder)
      requires unchanged(this`Repr, this`Tcbs, this`Packets, this`Devices, this`Handlers)
      requires unchanged(this`list, this`currentTcb, blocks)
      requires unchanged(old(Tcbs)) && unchanged(old(Devices)) && unchanged(old(Handlers))
      requires unchanged(old(Packets) - {packet})
      ensures Valid()
    {
      assert Structure() by {
        assert old(Structure());
      }
      forall i | 0 <= i < NUMBER_OF_IDS && blocks[i] != null
        ensures Owned(blocks[i]) && SlotValid(blocks[i], i)
      {
        var t := blocks[i];
        assert old(Placed(t, i)) && old(Owned(t)) && old(SlotValid(t, i));
        assert packet !in t.spine && packet !in TaskPackets(t.task);
      }
    }

    /** Between the two states the running task changed what it keeps and the packets
        in `moved`, each of which was in transit or kept by that task; its block and
        everything else stayed as they were. */
    twostate predicate TaskStepped(moved: set<Packet>)
      reads this, blocks, Tcbs, Packets, Devices, Handlers
    {
      old(Valid()) && 0 <= currentId < NUMBER_OF_IDS && blocks[currentId] != null &&
      blocks[currentId] == currentTcb &&
      unchanged(this`Repr, this`Tcbs, this`Packets, this`Devices, this`Handlers) &&
      unchanged(this`list, this`currentTcb, this`currentId, blocks) &&
      unchanged(old(Tcbs)) &&
      unchanged(old(Devices) - DeviceOf(currentTcb.task)) &&
      unchanged(old(Handlers) - HandlerOf(currentTcb.task)) &&
      unchanged(old(Packets) - moved) &&
      forall p :: p in moved ==>
        p in old(Packets) && old(p.holder) != Inbound(currentId) && old(Movable(p.holder, currentId))
    }

    /** A step of the running task that leaves what the task keeps well-formed keeps
        the invariant. */
    twostate lemma TaskStepKeepsValid(moved: set<Packet>)
      requires TaskStepped(moved)
      requires Owned(currentTcb) && TaskValid(currentTcb.task, currentId)
      ensures Valid()
    {
      TaskStepSlotValid(moved);
      TaskStepOnlySlot(moved);
      StepKeepsValid(currentId);
    }

    twostate lemma TaskStepSlotValid(moved: set<Packet>)
      requires TaskStepped(moved)
      requires TaskValid(currentTcb.task, currentId)
      ensures SlotValid(currentTcb, currentId)
    {
      var t := currentTcb;
      assert old(Placed(t, currentId)) && old(Owned(t)) && old(SlotValid(t, currentId));
      assert forall p :: p in t.spine ==> p !in moved;
    }

    twostate lemma TaskStepOnlySlot(moved: set<Packet>)
      requires TaskStepped(moved)
      ensures OnlySlotChanged(currentId)
    {
      var t := currentTcb;
      assert old(Placed(t, currentId));
    }

    /** Slot `other` is untouched by a step confined to slot `changed`. (The two
        slots travel as one pair.) */
    twostate lemma OtherSlotKept(slots: (int, int))
      requires old(Valid()) && OnlySlotChanged(slots.0)
      requires 0 <= slots.1 < NUMBER_OF_IDS && blocks[slots.1] != null && slots.1 != slots.0
      ensures Owned(blocks[slots.1]) && SlotValid(blocks[slots.1], slots.1)
    {
      TaskKept(slots);
      QueueKept(slots);
    }

    twostate lemma TaskKept(slots: (int, int))
      requires old(Valid()) && OnlySlotChanged(slots.0)
      requires 0 <= slots.1 < NUMBER_OF_IDS && blocks[slots.1] != null && slots.1 != slots.0
      ensures Owned(blocks[slots.1]) && TaskValid(blocks[slots.1].task, slots.1)
    {
      var (k, i) := slots;
      var t := blocks[i];
      assert old(Placed(t, i)) && old(Placed(blocks[k], k));
      assert TaskObject(t.task) != TaskObject(blocks[k].task);
      assert old(Owned(t)) && old(SlotValid(t, i));
      assert old(TaskValid(t.task, i));
    }

    twostate lemma QueueKept(slots: (int, int))
      requires old(Valid()) && OnlySlotChanged(slots.0)
      requires 0 <= slots.1 < NUMBER_OF_IDS && blocks[slots.1] != null && slots.1 != slots.0
      ensures blocks[slots.1].Valid() && HeldBy(blocks[slots.1].spine, Inbound(slots.1))
    {
      var (k, i) := slots;
      var t := blocks[i];
      assert old(Placed(t, i)) && old(Placed(blocks[k], k));
      assert unchanged(t);
      assert old(Owned(t)) && old(SlotValid(t, i));
      assert forall p :: p in t.spine ==> p.link == old(p.link) && p.holder == old(p.holder);
    }

    /** suspendCurrent. */
    method SuspendCurrent() returns (r: TaskControlBlock?)
      requires Valid() && currentTcb != null
      modifies Current()`state
      ensures Valid() && Stepped(r) && Suspended(r)
    {
      var t := currentTcb;
      t.MarkAsSuspended();
      StateChangeKeepsValid(t.id);
      return t;
    }

    /** queue: delivers `packet` to the block named by its id. The packet is then held
        by that block's queue; for an id with no block it stays in transit. */
    method Queue(packet: Packet) returns (r: TaskControlBlock?)
      requires Valid() && currentTcb != null && InTransit(packet)
      modifies this`queueCount, packet`link, packet`id, packet`holder
      modifies Slot(packet.id)`queue, Slot(packet.id)`spine, Slot(packet.id)`state, TailAt(packet.id)`link
      ensures Valid() && Stepped(r) && Queued(packet, old(packet.id), r)
      ensures packet.holder == if old(Block(packet.id)) == null then Transit else Inbound(old(packet.id))
      ensures old(Block(packet.id)) == null ==> packet.link == old(packet.link) && packet.id == old(packet.id)
    {
      var t := Block(packet.id);
      if t == null {
        r := null;
      } else {
        queueCount := queueCount + 1;
        packet.link := null;
        packet.id := currentId;
        TransitKeepsValid(packet);
        r := Admit(t, packet);
      }
    }

    /** checkPriorityAdd of block `t` for a packet in transit, which the block's queue
        then holds. */
    method Admit(t: TaskControlBlock, packet: Packet) returns (r: TaskControlBlock)
      requires Valid() && currentTcb != null && InTransit(packet) && packet.link == null
      requires 0 <= t.id < NUMBER_OF_IDS && blocks[t.id] == t
      modifies packet`link, packet`holder, t`queue, t`spine, t`state, Last(t.spine)`link
      ensures Valid() && packet.holder == Inbound(t.id)
      ensures t.spine == old(t.spine) + [packet] && packet.link == null
      ensures old(t.queue) == null ==>
        t.state == MarkRunnable(old(t.state)) &&
        r == (if t.priority > currentTcb.priority then t else currentTcb)
      ensures old(t.queue) != null ==> t.state == old(t.state) && r == currentTcb
    {
      assert old(Placed(t, t.id)) && old(Owned(t)) && old(SlotValid(t, t.id));
      packet.holder := Inbound(t.id);
      r := t.CheckPriorityAdd(currentTcb, packet);
      AdmitKeepsValid(packet);
    }

    // -- the run loop --------------------------------------------------------------

    /** schedule: walks from the list head; a held or suspended block passes the walk
        to its successor, any other block runs and its answer becomes the cursor.
        The walk ends when the cursor is null, or after `fuel` steps. */
    method Schedule(fuel: nat) returns (finished: bool)
      requires Valid()
      modifies Repr
      ensures Valid() && Repr == old(Repr)
      ensures finished <==> currentTcb == null
      ensures queueCount >= old(queueCount) && holdCount >= old(holdCount)
    {
      currentTcb := list;
      var steps := 0;
      while currentTcb != null && steps < fuel
        invariant Valid() && Repr == old(Repr)
        invariant queueCount >= old(queueCount) && holdCount >= old(holdCount)
        decreases fuel - steps
      {
        Step();
        steps := steps + 1;
      }
      finished := currentTcb == null;
    }

    /** One pass of the loop of schedule: a held or suspended block hands the walk to
        its successor in the list and nothing else changes; any other block runs
        under its own id, and what its run returns becomes the cursor. */
    method Step()
      requires Valid() && currentTcb != null
      modifies Repr
      ensures Valid() && Repr == old(Repr)
      ensures queueCount >= old(queueCount) && holdCount >= old(holdCount)
      ensures old(currentTcb.IsHeldOrSuspended()) ==>
        currentTcb == old(currentTcb.link) && currentId == old(currentId) &&
        queueCount == old(queueCount) && holdCount == old(holdCount) &&
        unchanged(Repr - {this}) && unchanged(blocks)
      ensures !old(currentTcb.IsHeldOrSuspended()) ==> currentId == old(currentTcb.id)
    {
      if currentTcb.IsHeldOrSuspended() {
        currentTcb := currentTcb.link;
      } else {
        currentId := currentTcb.id;
        currentTcb := currentTcb.Run();
      }
    }
  }

  // ---------------------------------------------------------------------------
  // The four behaviours

  /** JavaScript's `x >> 1` on a 32-bit value, an arithmetic shift: every bit moves
      down one place, the lowest is dropped and the sign bit is copied in: twice
      the result plus the bit dropped is `x` again, and the sign is kept, so as a
      signed number the result is `x` halved and rounded down. */
  function ShiftRight(x: bv32): (r: bv32)
    ensures r + r + (x & 1) == x
    ensures r & 0x8000_0000 == x & 0x8000_0000
  {
    (x >> 1) | (x & 0x8000_0000)
  }

  /** The idle task's pseudo-random seed step: shift right, and when the bit shifted
      out was set, flip the bits of 0xD008. The sign is kept, and a non-zero seed
      of 16 bits, like the idle task's first seed 1, stays a non-zero seed of 16
      bits. */
  function NextSeed(v: bv32): (r: bv32)
    ensures r & 0x8000_0000 == v & 0x8000_0000
    ensures 0 < v < 0x1_0000 ==> 0 < r < 0x1_0000
  {
    if v & 1 == 0 then ShiftRight(v) else ShiftRight(v) ^ 53256
  }

  class IdleTask {
    const scheduler: Scheduler
    var v1: bv32
    var count: int

    constructor (scheduler: Scheduler, v1: bv32, count: int)
      ensures this.scheduler == scheduler && this.v1 == v1 && this.count == count
    {
      this.scheduler := scheduler;
      this.v1 := v1;
      this.count := count;
    }

    /** Counts down; at zero holds itself, otherwise releases device A or B as the low
        bit of the seed says and steps the seed. The packet is ignored. */
    method Run(packet: Packet?) returns (next: TaskControlBlock?)
      requires scheduler.Valid() && scheduler.Running(Idle(this)) && scheduler.InTransit(packet)
      modifies this`count, When(count != 1, {this})`v1
      modifies When(count == 1, {scheduler})`holdCount, When(count == 1, scheduler.Current())`state
      modifies scheduler.Slot(if count == 1 then NO_ID else if v1 & 1 == 0 then ID_DEVICE_A else ID_DEVICE_B)`state
      ensures scheduler.Valid() && scheduler.Stepped(next)
      ensures count == old(count) - 1
      ensures count == 0 ==> v1 == old(v1) && scheduler.Held(next)
      ensures count != 0 ==>
        v1 == NextSeed(old(v1)) &&
        scheduler.Released(if old(v1) & 1 == 0 then ID_DEVICE_A else ID_DEVICE_B, next)
    {
      var seed := v1;
      count := count - 1;
      if count == 0 {
        scheduler.UntouchedKeepsValid();
        next := scheduler.HoldCurrent();
        return;
      }
      v1 := NextSeed(seed);
      scheduler.UntouchedKeepsValid();
      next := scheduler.Release(if seed & 1 == 0 then ID_DEVICE_A else ID_DEVICE_B);
    }
  }

  class DeviceTask {
    const scheduler: Scheduler
    var v1: Packet?

    constructor (scheduler: Scheduler)
      ensures this.scheduler == scheduler && v1 == null
    {
      this.scheduler := scheduler;
      v1 := null;
    }

    /** Given a packet, keeps it and holds itself; given none, sends back the packet it
        keeps, or suspends itself when it keeps none. */
    method Run(packet: Packet?) returns (next: TaskControlBlock?)
      requires scheduler.Valid() && scheduler.Running(Device(this)) && scheduler.InTransit(packet)
      modifies When(packet != null || v1 != null, {this})`v1, Opt(packet)`holder
      modifies When(packet == null, Opt(v1))`link, When(packet == null, Opt(v1))`id
      modifies When(packet == null, Opt(v1))`holder
      modifies When(packet == null && v1 != null, {scheduler})`queueCount
      modifies When(packet != null, {scheduler})`holdCount
      modifies When(packet != null || v1 == null, scheduler.Current())`state
      modifies scheduler.Slot(if packet == null then IdOf(v1) else NO_ID)`queue
      modifies scheduler.Slot(if packet == null then IdOf(v1) else NO_ID)`spine
      modifies scheduler.Slot(if packet == null then IdOf(v1) else NO_ID)`state
      modifies scheduler.TailAt(if packet == null then IdOf(v1) else NO_ID)`link
      ensures scheduler.Valid() && scheduler.Stepped(next)
      ensures packet == null && old(v1) == null ==> v1 == null && scheduler.Suspended(next)
      ensures packet == null && old(v1) != null ==>
        v1 == null && scheduler.Queued(old(v1), old(v1.id), next)
      ensures packet != null ==> v1 == packet && scheduler.Held(next)
    {
      if packet == null {
        if v1 == null {
          next := scheduler.SuspendCurrent();
          return;
        }
        next := SendBack();
      } else {
        next := KeepAndHold(packet);
      }
    }

    /** The path without a packet when one is kept: the kept packet goes back to the
        sender it names. */
    method SendBack() returns (next: TaskControlBlock?)
      requires scheduler.Valid() && scheduler.Running(Device(this)) && v1 != null
      modifies this`v1, v1`link, v1`id, v1`holder, scheduler`queueCount
      modifies scheduler.Slot(v1.id)`queue, scheduler.Slot(v1.id)`spine
      modifies scheduler.Slot(v1.id)`state, scheduler.TailAt(v1.id)`link
      ensures scheduler.Valid() && scheduler.Stepped(next)
      ensures v1 == null && scheduler.Queued(old(v1), old(v1.id), next)
    {
      var v := TakeKept();
      scheduler.ServiceFrame(v.id);
      next := scheduler.Queue(v);
    }

    /** The path with a packet: the device keeps it and holds itself. */
    method KeepAndHold(packet: Packet) returns (next: TaskControlBlock?)
      requires scheduler.Valid() && scheduler.Running(Device(this)) && scheduler.InTransit(packet)
      modifies this`v1, packet`holder, scheduler`holdCount, scheduler.Current()`state
      ensures scheduler.Valid() && scheduler.Stepped(next)
      ensures v1 == packet && scheduler.Held(next)
    {
      Keep(packet);
      next := scheduler.HoldCurrent();
    }

    /** The packet the device keeps leaves it and is in transit again. */
    method TakeKept() returns (v: Packet)
      requires scheduler.Valid() && scheduler.Running(Device(this)) && v1 != null
      modifies this`v1, v1`holder
      ensures scheduler.Valid() && v == old(v1) && v1 == null && scheduler.InTransit(v)
    {
      v := v1;
      v1 := null;
      v.holder := Transit;
      scheduler.TaskStepKeepsValid({v});
    }

    /** The device keeps `packet`; a packet it kept before is dropped. */
    method Keep(packet: Packet)
      requires scheduler.Valid() && scheduler.Running(Device(this)) && scheduler.InTransit(packet)
      modifies this`v1, packet`holder
      ensures scheduler.Valid() && v1 == packet && packet.holder == DeviceSlot(scheduler.currentId)
    {
      v1 := packet;
      packet.holder := DeviceSlot(scheduler.currentId);
      scheduler.TaskStepKeepsValid({packet});
    }
  }

  /** The id a packet is addressed to; no packet addresses no block. */
  function IdOf(p: Packet?): int
    reads Opt(p)
  {
    if p == null then NO_ID else p.id
  }

  /** `s` when `b` holds, and nothing otherwise: a frame that only one path of an
      operation needs. */
  function When<T>(b: bool, s: set<T>): set<T> {
    if b then s else {}
  }

  /** The id the head of a queue is addressed to; an empty queue addresses no block. */
  ghost function HeadId(spine: seq<Packet>): int
    reads First(spine)
  {
    if spine == [] then NO_ID else spine[0].id
  }

  /** The payload array of a packet, as a frame. */
  function PayloadOf(p: Packet?): set<array<nat>> {
    if p == null then {} else {p.a2}
  }

  /** The handler the worker addresses next: A after anything but A, B after A. */
  function OtherHandler(id: int): (r: int)
    ensures (r == ID_HANDLER_A || r == ID_HANDLER_B) && r != id
  {
    if id == ID_HANDLER_A then ID_HANDLER_B else ID_HANDLER_A
  }

  class WorkerTask {
    const scheduler: Scheduler
    var v1: int
    var v2: nat

    constructor (scheduler: Scheduler, v1: int, v2: nat)
      ensures this.scheduler == scheduler && this.v1 == v1 && this.v2 == v2
    {
      this.scheduler := scheduler;
      this.v1 := v1;
      this.v2 := v2;
    }

    /** Given a packet, switches between the two handlers, addresses the packet to the
        new one, zeroes its cursor, fills its payload from the running counter and
        queues it; given none, suspends itself. */
    method Run(packet: Packet?) returns (next: TaskControlBlock?)
      requires scheduler.Valid() && scheduler.Running(Worker(this)) && scheduler.InTransit(packet)
      modifies When(packet != null, {this})`v1, When(packet != null, {this})`v2
      modifies Opt(packet)`id, Opt(packet)`a1, PayloadOf(packet), Opt(packet)`link, Opt(packet)`holder
      modifies When(packet != null, {scheduler})`queueCount, When(packet == null, scheduler.Current())`state
      modifies scheduler.Slot(if packet == null then NO_ID else OtherHandler(v1))`queue
      modifies scheduler.Slot(if packet == null then NO_ID else OtherHandler(v1))`spine
      modifies scheduler.Slot(if packet == null then NO_ID else OtherHandler(v1))`state
      modifies scheduler.TailAt(if packet == null then NO_ID else OtherHandler(v1))`link
      ensures scheduler.Valid() && scheduler.Stepped(next)
      ensures packet == null ==> v1 == old(v1) && v2 == old(v2) && scheduler.Suspended(next)
      ensures packet != null ==>
        v1 == OtherHandler(old(v1)) && packet.a1 == 0 &&
        packet.a2[..] == Data(old(v2), DATA_SIZE) && v2 == Advance(old(v2), DATA_SIZE) &&
        scheduler.Queued(packet, OtherHandler(old(v1)), next)
    {
      if packet == null {
        next := scheduler.SuspendCurrent();
        return;
      }
      next := Send(packet);
    }

    /** The packet path: the packet, prepared, is queued to the next handler. */
    method Send(packet: Packet) returns (next: TaskControlBlock?)
      requires scheduler.Valid() && scheduler.Running(Worker(this)) && scheduler.InTransit(packet)
      modifies this`v1, this`v2, packet`id, packet`a1, packet.a2, packet`link, packet`holder
      modifies scheduler`queueCount
      modifies scheduler.Slot(OtherHandler(v1))`queue, scheduler.Slot(OtherHandler(v1))`spine
      modifies scheduler.Slot(OtherHandler(v1))`state, scheduler.TailAt(OtherHandler(v1))`link
      ensures scheduler.Valid() && scheduler.Stepped(next)
      ensures v1 == OtherHandler(old(v1)) && packet.a1 == 0
      ensures packet.a2[..] == Data(old(v2), DATA_SIZE) && v2 == Advance(old(v2), DATA_SIZE)
      ensures scheduler.Queued(packet, OtherHandler(old(v1)), next)
    {
      Prepare(packet);
      scheduler.ServiceFrame(packet.id);
      next := scheduler.Queue(packet);
    }

    /** The packet path up to the hand-over: the next handler, the packet addressed to
        it with cursor zero and a payload of the next DATA_SIZE values of the
        counter. */
    method Prepare(packet: Packet)
      requires scheduler.Valid() && scheduler.InTransit(packet)
      modifies this`v1, this`v2, packet`id, packet`a1, packet.a2
      ensures scheduler.Valid() && scheduler.InTransit(packet)
      ensures v1 == OtherHandler(old(v1)) && packet.id == v1 && packet.a1 == 0
      ensures packet.a2[..] == Data(old(v2), DATA_SIZE) && v2 == Advance(old(v2), DATA_SIZE)
    {
      v1 := OtherHandler(v1);
      packet.id := v1;
      packet.a1 := 0;
      for i := 0 to DATA_SIZE
        modifies this`v2, packet.a2
        invariant v2 == Advance(old(v2), i)
        invariant packet.a2[..i] == Data(old(v2), i)
      {
        v2 := NextDatum(v2);
        packet.a2[i] := v2;
      }
      scheduler.TransitKeepsValid(packet);
    }
  }

  class HandlerTask {
    const scheduler: Scheduler
    var v1: Packet?
    var v2: Packet?
    /** The packets of the work queue `v1` and of the device queue `v2`, in order. */
    ghost var workSpine: seq<Packet>
    ghost var deviceSpine: seq<Packet>

    constructor (scheduler: Scheduler)
      ensures this.scheduler == scheduler
      ensures v1 == null && v2 == null && workSpine == [] && deviceSpine == []
    {
      this.scheduler := scheduler;
      v1 := null;
      v2 := null;
      workSpine := [];
      deviceSpine := [];
    }

    /** run: files a delivered packet by kind (File), then sends a datum, returns a
        finished work packet or suspends itself (Dispatch). */
    method Run(packet: Packet?) returns (next: TaskControlBlock?)
      requires scheduler.Valid() && scheduler.Running(Handler(this)) && scheduler.InTransit(packet)
      modifies scheduler.Repr
      ensures scheduler.Valid() && scheduler.Stepped(next)
    {
      KeptOwned();
      File(packet);
      KeptOwned();
      scheduler.ServiceFrame(HeadId(workSpine));
      scheduler.ServiceFrame(HeadId(deviceSpine));
      next := Dispatch();
    }

    /** The filing half of run: a delivered packet joins the tail of the list of its
        kind. */
    method File(packet: Packet?)
      requires scheduler.Valid() && scheduler.Running(Handler(this)) && scheduler.InTransit(packet)
      modifies this`v1, this`v2, this`workSpine, this`deviceSpine
      modifies Opt(packet)`link, Opt(packet)`holder, Last(workSpine)`link, Last(deviceSpine)`link
      ensures scheduler.Valid()
      ensures workSpine == old(workSpine) + (if packet != null && packet.kind == KindWork then [packet] else [])
      ensures deviceSpine == old(deviceSpine) + (if packet != null && packet.kind == KindDevice then [packet] else [])
    {
      if packet != null {
        if packet.kind == KindWork {
          FileWork(packet);
        } else {
          FileDevice(packet);
        }
      }
    }

    /** The registered handler's lists are well-formed queues of simulation packets
        that record this handler's lists as their holders. */
    lemma Kept()
      requires scheduler.Valid() && scheduler.Running(Handler(this))
      ensures IsQueue(v1, workSpine) && HeldBy(workSpine, WorkList(scheduler.currentId))
      ensures IsQueue(v2, deviceSpine) && HeldBy(deviceSpine, DeviceList(scheduler.currentId))
    {
      var t := scheduler.currentTcb;
      assert scheduler.SlotValid(t, t.id);
    }

    /** The packets in the registered handler's lists belong to the simulation. */
    lemma KeptOwned()
      requires scheduler.Valid() && scheduler.Running(Handler(this))
      ensures forall p :: p in workSpine ==> p in scheduler.Packets
      ensures forall p :: p in deviceSpine ==> p in scheduler.Packets
    {
      var t := scheduler.currentTcb;
      assert scheduler.Owned(t);
    }

    /** A delivered work packet joins the tail of the work list. */
    method FileWork(packet: Packet)
      requires scheduler.Valid() && scheduler.Running(Handler(this)) && scheduler.InTransit(packet)
      requires packet.kind == KindWork
      modifies this`v1, this`workSpine, packet`link, packet`holder, Last(workSpine)`link
      ensures scheduler.Valid() && workSpine == old(workSpine) + [packet]
    {
      Kept();
      v1 := packet.AddTo(v1, workSpine);
      workSpine := workSpine + [packet];
      packet.holder := WorkList(scheduler.currentId);
      Filed(packet);
    }

    /** A delivered device packet joins the tail of the device list. */
    method FileDevice(packet: Packet)
      requires scheduler.Valid() && scheduler.Running(Handler(this)) && scheduler.InTransit(packet)
      requires packet.kind == KindDevice
      modifies this`v2, this`deviceSpine, packet`link, packet`holder, Last(deviceSpine)`link
      ensures scheduler.Valid() && deviceSpine == old(deviceSpine) + [packet]
    {
      Kept();
      v2 := packet.AddTo(v2, deviceSpine);
      deviceSpine := deviceSpine + [packet];
      packet.holder := DeviceList(scheduler.currentId);
      Filed(packet);
    }

    /** The work list for KindWork, the device list otherwise. */
    ghost function List(kind: Kind): seq<Packet>
      reads this
    {
      if kind == KindWork then workSpine else deviceSpine
    }

    /** Filing a packet in transit at the tail of the list of its kind keeps the
        scheduler's invariant; the other list is untouched. */
    twostate lemma Filed(packet: Packet)
      requires old(scheduler.Valid()) && old(scheduler.Running(Handler(this)))
      requires old(scheduler.InTransit(packet))
      requires unchanged(scheduler, scheduler.blocks) && unchanged(old(scheduler.Tcbs))
      requires unchanged(old(scheduler.Devices)) && unchanged(old(scheduler.Handlers) - {this})
      requires forall p :: p in old(scheduler.Packets) && p != packet && p !in old(Last(List(packet.kind))) ==>
        unchanged(p)
      requires forall p :: p in old(Last(List(packet.kind))) ==> p.holder == old(p.holder)
      requires packet.kind == KindWork ==>
        workSpine == old(workSpine) + [packet] && IsQueue(v1, workSpine) &&
        packet.holder == WorkList(scheduler.currentId) &&
        deviceSpine == old(deviceSpine) && v2 == old(v2)
      requires packet.kind == KindDevice ==>
        deviceSpine == old(deviceSpine) + [packet] && IsQueue(v2, deviceSpine) &&
        packet.holder == DeviceList(scheduler.currentId) &&
        workSpine == old(workSpine) && v1 == old(v1)
      ensures scheduler.Valid()
    {
      FiledListsValid(packet);
      FiledStep(packet);
      scheduler.TaskStepKeepsValid({packet} + old(Last(List(packet.kind))));
    }

    twostate lemma FiledListsValid(packet: Packet)
      requires old(scheduler.Valid()) && old(scheduler.Running(Handler(this)))
      requires old(scheduler.InTransit(packet))
      requires unchanged(scheduler, scheduler.blocks) && unchanged(old(scheduler.Tcbs))
      requires unchanged(old(scheduler.Devices)) && unchanged(old(scheduler.Handlers) - {this})
      requires forall p :: p in old(scheduler.Packets) && p != packet && p !in old(Last(List(packet.kind))) ==>
        unchanged(p)
      requires forall p :: p in old(Last(List(packet.kind))) ==> p.holder == old(p.holder)
      requires packet.kind == KindWork ==>
        workSpine == old(workSpine) + [packet] && IsQueue(v1, workSpine) &&
        packet.holder == WorkList(scheduler.currentId) &&
        deviceSpine == old(deviceSpine) && v2 == old(v2)
      requires packet.kind == KindDevice ==>
        deviceSpine == old(deviceSpine) + [packet] && IsQueue(v2, deviceSpine) &&
        packet.holder == DeviceList(scheduler.currentId) &&
        workSpine == old(workSpine) && v1 == old(v1)
      ensures scheduler.Owned(scheduler.currentTcb)
      ensures TaskValid(Handler(this), scheduler.currentId)
    {
      var t := scheduler.currentTcb;
      var id := scheduler.currentId;
      assert old(scheduler.Owned(t) && scheduler.SlotValid(t, t.id));
      assert old(TaskValid(Handler(this), id)) && old(TaskPackets(Handler(this))) <= old(scheduler.Packets);
      var tail := old(Last(List(packet.kind)));
      if packet.kind == KindWork {
        forall p | p in deviceSpine
          ensures p != packet && p !in tail && unchanged(p)
        {
          assert old(p.holder) == DeviceList(id);
          assert p in old(TaskPackets(Handler(this)));
        }
        forall k | 0 <= k < |deviceSpine|
          ensures deviceSpine[k].link == old(deviceSpine[k].link)
        {
          assert deviceSpine[k] in deviceSpine;
        }
        forall p | p in old(workSpine)
          ensures p != packet && p.holder == old(p.holder)
        {
          assert p in old(TaskPackets(Handler(this)));
        }
      } else {
        forall p | p in workSpine
          ensures p != packet && p !in tail && unchanged(p)
        {
          assert old(p.holder) == WorkList(id);
          assert p in old(TaskPackets(Handler(this)));
        }
        forall k | 0 <= k < |workSpine|
          ensures workSpine[k].link == old(workSpine[k].link)
        {
          assert workSpine[k] in workSpine;
        }
        forall p | p in old(deviceSpine)
          ensures p != packet && p.holder == old(p.holder)
        {
          assert p in old(TaskPackets(Handler(this)));
        }
      }
    }

    twostate lemma FiledStep(packet: Packet)
      requires old(scheduler.Valid()) && old(scheduler.Running(Handler(this)))
      requires old(scheduler.InTransit(packet))
      requires unchanged(scheduler, scheduler.blocks) && unchanged(old(scheduler.Tcbs))
      requires unchanged(old(scheduler.Devices)) && unchanged(old(scheduler.Handlers) - {this})
      requires forall p :: p in old(scheduler.Packets) && p != packet && p !in old(Last(List(packet.kind))) ==>
        unchanged(p)
      requires forall p :: p in old(Last(List(packet.kind))) ==> p.holder == old(p.holder)
      requires packet.kind == KindWork ==>
        workSpine == old(workSpine) + [packet] && IsQueue(v1, workSpine) &&
        packet.holder == WorkList(scheduler.currentId) &&
        deviceSpine == old(deviceSpine) && v2 == old(v2)
      requires packet.kind == KindDevice ==>
        deviceSpine == old(deviceSpine) + [packet] && IsQueue(v2, deviceSpine) &&
        packet.holder == DeviceList(scheduler.currentId) &&
        workSpine == old(workSpine) && v1 == old(v1)
      ensures scheduler.TaskStepped({packet} + old(Last(List(packet.kind))))
    {
      var t := scheduler.currentTcb;
      assert old(scheduler.Owned(t) && scheduler.SlotValid(t, t.id));
    }

    /** The head work packet has a datum left and a device packet is waiting. */
    ghost predicate SendsDatum()
      reads this, First(workSpine)`a1
    {
      workSpine != [] && workSpine[0].a1 < DATA_SIZE && deviceSpine != []
    }

    /** The head work packet has no datum left. */
    ghost predicate ReturnsWork()
      reads this, First(workSpine)`a1
    {
      workSpine != [] && workSpine[0].a1 >= DATA_SIZE
    }

    /** What follows the filing: a datum to the head device packet, the finished work
        packet back, or a suspension. */
    method Dispatch() returns (next: TaskControlBlock?)
      requires scheduler.Valid() && scheduler.Running(Handler(this))
      modifies When(ReturnsWork(), {this})`v1, When(ReturnsWork(), {this})`workSpine
      modifies When(SendsDatum(), {this})`v2, When(SendsDatum(), {this})`deviceSpine
      modifies When(SendsDatum() || ReturnsWork(), {scheduler})`queueCount
      modifies When(!SendsDatum() && !ReturnsWork(), scheduler.Current())`state
      modifies When(SendsDatum(), First(workSpine))`a1, When(ReturnsWork(), First(workSpine))`link
      modifies When(ReturnsWork(), First(workSpine))`id, When(ReturnsWork(), First(workSpine))`holder
      modifies When(SendsDatum(), First(deviceSpine))`a1, When(SendsDatum(), First(deviceSpine))`link
      modifies When(SendsDatum(), First(deviceSpine))`id, When(SendsDatum(), First(deviceSpine))`holder
      modifies scheduler.Slot(if ReturnsWork() then HeadId(workSpine) else NO_ID)`queue
      modifies scheduler.Slot(if ReturnsWork() then HeadId(workSpine) else NO_ID)`spine
      modifies scheduler.Slot(if ReturnsWork() then HeadId(workSpine) else NO_ID)`state
      modifies scheduler.TailAt(if ReturnsWork() then HeadId(workSpine) else NO_ID)`link
      modifies scheduler.Slot(if SendsDatum() then HeadId(deviceSpine) else NO_ID)`queue
      modifies scheduler.Slot(if SendsDatum() then HeadId(deviceSpine) else NO_ID)`spine
      modifies scheduler.Slot(if SendsDatum() then HeadId(deviceSpine) else NO_ID)`state
      modifies scheduler.TailAt(if SendsDatum() then HeadId(deviceSpine) else NO_ID)`link
      ensures scheduler.Valid() && scheduler.Stepped(next)
      ensures
        var work := old(workSpine);
        var dev := old(deviceSpine);
        if work != [] && old(work[0].a1) < DATA_SIZE && dev != [] then
          workSpine == work && deviceSpine == dev[1..] &&
          work[0].a1 == old(work[0].a1) + 1 && dev[0].a1 == old(work[0].a2[work[0].a1]) &&
          scheduler.Queued(dev[0], old(dev[0].id), next)
        else if work != [] && old(work[0].a1) >= DATA_SIZE then
          workSpine == work[1..] && deviceSpine == dev &&
          scheduler.Queued(work[0], old(work[0].id), next)
        else
          workSpine == work && deviceSpine == dev && scheduler.Suspended(next)
    {
      Kept();
      if v1 != null {
        var count := v1.a1;
        if count < DATA_SIZE {
          if v2 != null {
            scheduler.ServiceFrame(v2.id);
            next := SendDatum();
            return;
          }
        } else {
          scheduler.ServiceFrame(v1.id);
          next := ReturnWork();
          return;
        }
      }
      next := scheduler.SuspendCurrent();
    }

    /** The head device packet, loaded with the next datum of the head work packet,
        goes to the device it names. */
    method SendDatum() returns (next: TaskControlBlock?)
      requires scheduler.Valid() && scheduler.Running(Handler(this))
      requires workSpine != [] && workSpine[0].a1 < DATA_SIZE && deviceSpine != []
      modifies this`v2, this`deviceSpine, scheduler`queueCount, First(workSpine)`a1
      modifies First(deviceSpine)`link, First(deviceSpine)`id, First(deviceSpine)`holder, First(deviceSpine)`a1
      modifies scheduler.Slot(deviceSpine[0].id)`queue, scheduler.Slot(deviceSpine[0].id)`spine
      modifies scheduler.Slot(deviceSpine[0].id)`state, scheduler.TailAt(deviceSpine[0].id)`link
      ensures scheduler.Valid() && scheduler.Stepped(next)
      ensures workSpine == old(workSpine) && deviceSpine == old(deviceSpine[1..])
      ensures workSpine[0].a1 == old(workSpine[0].a1) + 1
      ensures old(deviceSpine[0]).a1 == old(workSpine[0].a2[workSpine[0].a1])
      ensures scheduler.Queued(old(deviceSpine[0]), old(deviceSpine[0].id), next)
    {
      LoadDatum();
      next := SendDevicePacket();
    }

    /** The next datum of the head work packet goes into the head device packet, and
        the work packet's cursor advances. */
    method LoadDatum()
      requires scheduler.Valid() && scheduler.Running(Handler(this))
      requires workSpine != [] && workSpine[0].a1 < DATA_SIZE && deviceSpine != []
      modifies First(deviceSpine)`a1, First(workSpine)`a1
      ensures scheduler.Valid()
      ensures workSpine[0].a1 == old(workSpine[0].a1) + 1
      ensures deviceSpine[0].a1 == old(workSpine[0].a2[workSpine[0].a1])
    {
      Kept();
      KeptOwned();
      assert workSpine[0] in scheduler.Packets && workSpine[0].holder != deviceSpine[0].holder;
      var work := v1;
      var count := work.a1;
      v2.a1 := work.a2[count];
      work.a1 := count + 1;
    }

    /** The head device packet goes to the device it names. */
    method SendDevicePacket() returns (next: TaskControlBlock?)
      requires scheduler.Valid() && scheduler.Running(Handler(this))
      requires deviceSpine != []
      modifies this`v2, this`deviceSpine, scheduler`queueCount
      modifies First(deviceSpine)`link, First(deviceSpine)`id, First(deviceSpine)`holder
      modifies scheduler.Slot(deviceSpine[0].id)`queue, scheduler.Slot(deviceSpine[0].id)`spine
      modifies scheduler.Slot(deviceSpine[0].id)`state, scheduler.TailAt(deviceSpine[0].id)`link
      ensures scheduler.Valid() && scheduler.Stepped(next)
      ensures workSpine == old(workSpine) && deviceSpine == old(deviceSpine[1..])
      ensures scheduler.Queued(old(deviceSpine[0]), old(deviceSpine[0].id), next)
    {
      var v := TakeDevicePacket();
      scheduler.ServiceFrame(v.id);
      next := scheduler.Queue(v);
    }

    /** The head device packet leaves the device list. */
    method TakeDevicePacket() returns (v: Packet)
      requires scheduler.Valid() && scheduler.Running(Handler(this)) && deviceSpine != []
      modifies this`v2, this`deviceSpine, First(deviceSpine)`holder
      ensures scheduler.Valid() && scheduler.InTransit(v)
      ensures v == old(deviceSpine[0]) && deviceSpine == old(deviceSpine[1..])
      ensures unchanged(scheduler, scheduler.blocks) && unchanged(scheduler.Tcbs) && v.id == old(v.id)
    {
      Kept();
      PopQueue(v2, deviceSpine);
      v := v2;
      v2 := v2.link;
      deviceSpine := deviceSpine[1..];
      v.holder := Transit;
      TookDevice(v);
    }

    /** The finished head work packet goes back to the worker it names. */
    method ReturnWork() returns (next: TaskControlBlock?)
      requires scheduler.Valid() && scheduler.Running(Handler(this))
      requires workSpine != [] && workSpine[0].a1 >= DATA_SIZE
      modifies this`v1, this`workSpine, scheduler`queueCount
      modifies First(workSpine)`link, First(workSpine)`id, First(workSpine)`holder
      modifies scheduler.Slot(workSpine[0].id)`queue, scheduler.Slot(workSpine[0].id)`spine
      modifies scheduler.Slot(workSpine[0].id)`state, scheduler.TailAt(workSpine[0].id)`link
      ensures scheduler.Valid() && scheduler.Stepped(next)
      ensures workSpine == old(workSpine[1..]) && deviceSpine == old(deviceSpine)
      ensures scheduler.Queued(old(workSpine[0]), old(workSpine[0].id), next)
    {
      var v := TakeWorkPacket();
      scheduler.ServiceFrame(v.id);
      next := scheduler.Queue(v);
    }

    /** The head work packet leaves the work list. */
    method TakeWorkPacket() returns (v: Packet)
      requires scheduler.Valid() && scheduler.Running(Handler(this)) && workSpine != []
      modifies this`v1, this`workSpine, First(workSpine)`holder
      ensures scheduler.Valid() && scheduler.InTransit(v)
      ensures v == old(workSpine[0]) && workSpine == old(workSpine[1..])
      ensures unchanged(scheduler, scheduler.blocks) && unchanged(scheduler.Tcbs) && v.id == old(v.id)
    {
      Kept();
      PopQueue(v1, workSpine);
      v := v1;
      v1 := v1.link;
      workSpine := workSpine[1..];
      v.holder := Transit;
      TookWork(v);
    }

    /** Taking the head off the work list keeps the scheduler's invariant. */
    twostate lemma TookWork(v: Packet)
      requires old(scheduler.Valid()) && old(scheduler.Running(Handler(this)))
      requires unchanged(scheduler, scheduler.blocks) && unchanged(old(scheduler.Tcbs))
      requires unchanged(old(scheduler.Devices)) && unchanged(old(scheduler.Handlers) - {this})
      requires forall p :: p in old(scheduler.Packets) && p != v ==> unchanged(p)
      requires old(workSpine) != [] && v == old(workSpine[0]) && v.holder == Transit
      requires workSpine == old(workSpine[1..]) && IsQueue(v1, workSpine) && v !in workSpine
      requires deviceSpine == old(deviceSpine) && v2 == old(v2)
      ensures scheduler.Valid() && scheduler.InTransit(v)
    {
      var t := scheduler.currentTcb;
      var id := scheduler.currentId;
      assert old(scheduler.Owned(t) && scheduler.SlotValid(t, t.id));
      assert old(TaskValid(Handler(this), id)) && old(TaskPackets(Handler(this))) <= old(scheduler.Packets);
      assert old(v.holder) == WorkList(id);
      forall p | p in deviceSpine
        ensures unchanged(p)
      {
        assert old(p.holder) == DeviceList(id);
        assert p in old(TaskPackets(Handler(this)));
      }
      forall k | 0 <= k < |deviceSpine|
        ensures deviceSpine[k].link == old(deviceSpine[k].link)
      {
        assert deviceSpine[k] in deviceSpine;
      }
      forall p | p in workSpine
        ensures unchanged(p)
      {
        assert p in old(workSpine) && p != v;
        assert p in old(TaskPackets(Handler(this)));
      }
      scheduler.TaskStepKeepsValid({v});
    }

    /** Taking the head off the device list, and advancing the cursor of the head work
        packet, keeps the scheduler's invariant. */
    twostate lemma TookDevice(v: Packet)
      requires old(scheduler.Valid()) && old(scheduler.Running(Handler(this)))
      requires unchanged(scheduler, scheduler.blocks) && unchanged(old(scheduler.Tcbs))
      requires unchanged(old(scheduler.Devices)) && unchanged(old(scheduler.Handlers) - {this})
      requires forall p :: p in old(scheduler.Packets) && p != v ==> unchanged(p)
      requires old(deviceSpine) != [] && v == old(deviceSpine[0]) && v.holder == Transit
      requires deviceSpine == old(deviceSpine[1..]) && IsQueue(v2, deviceSpine) && v !in deviceSpine
      requires workSpine == old(workSpine) && v1 == old(v1)
      ensures scheduler.Valid() && scheduler.InTransit(v)
    {
      var t := scheduler.currentTcb;
      var id := scheduler.currentId;
      assert old(scheduler.Owned(t) && scheduler.SlotValid(t, t.id));
      assert old(TaskValid(Handler(this), id)) && old(TaskPackets(Handler(this))) <= old(scheduler.Packets);
      assert old(v.holder) == DeviceList(id);
      forall p | p in workSpine
        ensures unchanged(p)
      {
        assert old(p.holder) == WorkList(id);
        assert p in old(TaskPackets(Handler(this)));
      }
      forall k | 0 <= k < |workSpine|
        ensures workSpine[k].link == old(workSpine[k].link)
      {
        assert workSpine[k] in workSpine;
      }
      forall p | p in deviceSpine
        ensures unchanged(p)
      {
        assert p in old(deviceSpine) && p != v;
        assert p in old(TaskPackets(Handler(this)));
      }
      scheduler.TaskStepKeepsValid({v});
    }
  }
}
