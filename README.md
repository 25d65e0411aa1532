# Richards scheduler in Dafny

This project models the Richards benchmark in `test/scripts/input/richards.exec.rest.js`. The benchmark is a cooperative task scheduler with priority preemption. It passes packets among six simulated tasks: an idle task, a worker, two handlers and two devices.

The model keeps the program's imperative shape:

- **`TaskState`** (`task_state.dfy`): the bit-flag states of a task control block (RUNNING 0, RUNNABLE 1, SUSPENDED 2, HELD 4, SUSPENDED_RUNNABLE 3, NOT_HELD -5). They are 32-bit values, since JavaScript's `|` and `&` work on 32-bit integers.
- **`Payload`** (`payload.dfy`): the worker's data counter (1, 2, ..., 26, then 1 again) and the values it writes into a packet's payload.
- **`PacketQueues`** (`packet.dfy`): `class Packet`, with the same fields as the program's `Packet`, and the singly linked packet queues.
  - Each queue is paired with a ghost sequence of its packets, its *spine*; `IsQueue` ties the two together.
  - Each packet carries a ghost record of where it is held, so the proof knows that no packet sits in two queues.
  - `AddTo` keeps the program's loop that walks the links to the tail.
- **`Richards`** (`richards.dfy`):
  - `TaskControlBlock` and `Scheduler` as classes whose methods update fields in place. The scheduler has a table of six blocks, the list of blocks, the cursor `currentTcb`, `currentId`, and the counters `queueCount` and `holdCount`.
  - Each new block goes in front of the list, so the list runs in reverse creation order: device B first, the idle task last.
  - The four task classes `IdleTask`, `DeviceTask`, `WorkerTask` and `HandlerTask`. The program dispatches `run` on the task object; here the `Task` datatype tags a block's behaviour.
  - `Scheduler.Valid()`, the invariant every operation keeps: the six slots, the objects of the simulation, and well-formed queues whose packets record their holders.
  - The effects of the scheduler's services, as two-state predicates. Each running task's `Run` is specified by them:
    - `Queued` for `queue`;
    - `Released` for `release`;
    - `Held` for `holdCurrent`;
    - `Suspended` for `suspendCurrent`;
    - `Stepped` for what every step keeps.
- **`Benchmark`** (`run.dfy`): `runRichards`, that is, the set-up of the six tasks and their packets, the run of `schedule`, and the check of the two counters against 2322 and 928.

`currentId` is set in `schedule` to the id of the block about to run (line 275), and `queue` stamps packets with it (line 316).

## Model

| member | source | states |
|---|---|---|
| TaskState.MarkHeld | test/scripts/input/richards.exec.rest.js:322-323 | the HELD bit is set and every other bit, RUNNABLE among them, is kept |
| TaskState.MarkNotHeld | test/scripts/input/richards.exec.rest.js:320-321 | the result is `s & -5`: HELD is cleared and every other bit, RUNNABLE among them, is kept |
| TaskState.MarkSuspended | test/scripts/input/richards.exec.rest.js:326-327 | the SUSPENDED bit is set, every other bit is kept |
| TaskState.MarkRunnable | test/scripts/input/richards.exec.rest.js:328-329 | the RUNNABLE bit is set, every other bit is kept |
| TaskState.IsHeldOrSuspended | test/scripts/input/richards.exec.rest.js:324-325 | true when HELD is set or the state is exactly SUSPENDED; SUSPENDED_RUNNABLE is schedulable; on flag states, false exactly for RUNNING, RUNNABLE and SUSPENDED_RUNNABLE |
| Payload.NextDatum | test/scripts/input/richards.exec.rest.js:430-433 | the counter step lands in 1..26; from 0..26 it is `v % 26 + 1` |
| Payload.DataAt | test/scripts/input/richards.exec.rest.js:429-435 | the data written has DATA_SIZE entries, and slot k holds the counter after k + 1 steps |
| Payload.AdvanceClosedForm | test/scripts/input/richards.exec.rest.js:430-433 | from a start in 0..26, n >= 1 steps of the counter give `(v + n - 1) % 26 + 1` |
| Payload.DataValues | test/scripts/input/richards.exec.rest.js:429-435 | every payload value lies in 1..26, and from a start in 0..26 slot k holds `(v + k) % 26 + 1` |
| PacketQueues.Packet.constructor | test/scripts/input/richards.exec.rest.js:109-124 | the given link, id and kind, cursor 0, and a fresh payload of DATA_SIZE slots |
| PacketQueues.Packet.AddTo | test/scripts/input/richards.exec.rest.js:474-493 | the packet is unlinked and appended after every packet of the queue, in order; the result is the packet alone for an empty queue, the same head otherwise |
| PacketQueues.LinklessIsTail | test/scripts/input/richards.exec.rest.js:489-491 | in a queue, only the tail has a null link, so the walk of addTo stops at the tail |
| PacketQueues.ChainDistinct | test/scripts/input/richards.exec.rest.js:489-491 | a linked queue visits no packet twice |
| PacketQueues.PopQueue | test/scripts/input/richards.exec.rest.js:339-340 | the head's link starts the queue of the remaining packets, which no longer contains the head |
| Richards.TaskControlBlock.constructor | test/scripts/input/richards.exec.rest.js:39-61 | the given fields; the state is SUSPENDED for an empty queue and SUSPENDED_RUNNABLE otherwise |
| Richards.TaskControlBlock.SetRunning | test/scripts/input/richards.exec.rest.js:318-319 | the state becomes RUNNING and the queue stays well-formed |
| Richards.TaskControlBlock.MarkAsNotHeld | test/scripts/input/richards.exec.rest.js:320-321 | the state becomes `MarkNotHeld` of the old state |
| Richards.TaskControlBlock.MarkAsHeld | test/scripts/input/richards.exec.rest.js:322-323 | the state becomes `MarkHeld` of the old state |
| Richards.TaskControlBlock.MarkAsSuspended | test/scripts/input/richards.exec.rest.js:326-327 | the state becomes `MarkSuspended` of the old state |
| Richards.TaskControlBlock.MarkAsRunnable | test/scripts/input/richards.exec.rest.js:328-329 | the state becomes `MarkRunnable` of the old state; allowed only with a packet waiting |
| Richards.TaskControlBlock.TakePacket | test/scripts/input/richards.exec.rest.js:337-348 | in SUSPENDED_RUNNABLE the head packet leaves the queue, and the state becomes RUNNING when the queue is then empty, RUNNABLE otherwise; in any other state the result is null and the queue and state are unchanged |
| Richards.TaskControlBlock.Receive | test/scripts/input/richards.exec.rest.js:337-348 | the same as TakePacket, for the running block; the packet taken is in transit and the scheduler's invariant holds |
| Richards.TaskControlBlock.Run | test/scripts/input/richards.exec.rest.js:330-349 | the block takes its packet and runs its task; the invariant holds, the counters do not go down, and the block returned is null or registered |
| Richards.TaskControlBlock.CheckPriorityAdd | test/scripts/input/richards.exec.rest.js:350-369 | the packet is appended at the tail. On an empty queue the block also becomes RUNNABLE, and the result is the block exactly when its priority is strictly higher than the caller's. On a non-empty queue the state is kept and the caller is returned |
| Richards.Scheduler.constructor | test/scripts/input/richards.exec.rest.js:32-38 | both counters 0, six empty slots, no list, no current block, no current id |
| Richards.Scheduler.AddTask | test/scripts/input/richards.exec.rest.js:254-268 | a fresh block in front of the old list, registered under its id and current; other slots and counters unchanged; the invariant holds |
| Richards.Scheduler.AddRunningTask | test/scripts/input/richards.exec.rest.js:240-253 | what addTask leaves, with the new block RUNNING |
| Richards.Scheduler.AddIdleTask | test/scripts/input/richards.exec.rest.js:191-203 | an idle task with seed 1 and the given count, added RUNNING |
| Richards.Scheduler.AddWorkerTask | test/scripts/input/richards.exec.rest.js:204-215 | a worker addressing handler A first with counter 0, added by addTask |
| Richards.Scheduler.AddHandlerTask | test/scripts/input/richards.exec.rest.js:216-227 | a handler with empty work and device lists, added by addTask |
| Richards.Scheduler.AddDeviceTask | test/scripts/input/richards.exec.rest.js:228-239 | a device keeping no packet, added by addTask |
| Richards.Scheduler.Install | test/scripts/input/richards.exec.rest.js:266-268 | the block becomes the list head, the current block and the occupant of its slot; other slots unchanged; the invariant holds |
| Richards.Scheduler.Release | test/scripts/input/richards.exec.rest.js:279-295 | an id with no block gives null; otherwise only HELD is cleared on that block, and it is returned exactly when its priority is strictly higher than the current block's; counters unchanged |
| Richards.Scheduler.HoldCurrent | test/scripts/input/richards.exec.rest.js:296-299 | holdCount goes up by exactly 1, the current block becomes HELD, and its list successor is returned; queueCount unchanged |
| Richards.Scheduler.SuspendCurrent | test/scripts/input/richards.exec.rest.js:300-302 | the current block becomes SUSPENDED and is returned; counters unchanged |
| Richards.Scheduler.Queue | test/scripts/input/richards.exec.rest.js:303-317 | an id with no block gives null and leaves queueCount and the packet's link and id as they were. Otherwise queueCount goes up by exactly 1, the packet is unlinked, restamped with currentId and admitted as in checkPriorityAdd |
| Richards.Scheduler.Admit | test/scripts/input/richards.exec.rest.js:317 | checkPriorityAdd of the target on behalf of the current block; afterwards the target's queue holds the packet and the invariant holds |
| Richards.Scheduler.Schedule | test/scripts/input/richards.exec.rest.js:269-278 | the walk keeps the invariant and the objects; it reports finished exactly when the cursor is null; neither counter goes down |
| Richards.Scheduler.Step | test/scripts/input/richards.exec.rest.js:271-277 | a held or suspended block passes the walk to its list successor, and no block, packet, task or slot changes; any other block runs with currentId set to its id |
| Richards.ShiftRight | test/scripts/input/richards.exec.rest.js:384 | `>> 1` on 32 bits: twice the result plus the bit shifted out gives the value back, and the sign bit is kept, so the signed value is halved and rounded down |
| Richards.NextSeed | test/scripts/input/richards.exec.rest.js:383-387 | the seed step keeps the sign, and a non-zero seed of 16 bits stays a non-zero seed of 16 bits |
| Richards.OtherHandler | test/scripts/input/richards.exec.rest.js:422-426 | the new target is handler A or handler B, and never the old one |
| Richards.Scheduler.Block | test/scripts/input/richards.exec.rest.js:286 | a block found lies in the table under that id; an id outside the table gives null, as the program's `undefined` does in release and in queue (line 310) |
| Richards.IdleTask.constructor | test/scripts/input/richards.exec.rest.js:62-75 | the given scheduler, seed and count |
| Richards.IdleTask.Run | test/scripts/input/richards.exec.rest.js:372-389 | the count goes down by 1. At zero the task holds itself and keeps its seed. Otherwise it steps the seed (shift, and xor 53256 when the low bit was set) and releases device A for an even seed, B for an odd one. Only those fields, holdCount and the released or held block's state may change |
| Richards.DeviceTask.constructor | test/scripts/input/richards.exec.rest.js:76-84 | the given scheduler and no kept packet |
| Richards.DeviceTask.Run | test/scripts/input/richards.exec.rest.js:392-409 | with no packet and none kept, it suspends; with no packet and one kept, it queues the kept packet back and keeps none; with a packet, it keeps the packet and holds itself. On each path only the fields that path writes may change |
| Richards.DeviceTask.SendBack | test/scripts/input/richards.exec.rest.js:403-405 | the kept packet is queued to the id it carries and the slot is emptied; only the packet, queueCount and the target's queue may change |
| Richards.DeviceTask.KeepAndHold | test/scripts/input/richards.exec.rest.js:407-408 | the packet is kept and the device holds itself; only the kept slot, holdCount and the device's state may change |
| Richards.DeviceTask.TakeKept | test/scripts/input/richards.exec.rest.js:403-404 | the kept packet leaves the slot and is in transit |
| Richards.DeviceTask.Keep | test/scripts/input/richards.exec.rest.js:407 | the packet is kept by this device |
| Richards.WorkerTask.constructor | test/scripts/input/richards.exec.rest.js:85-98 | the given scheduler, target and counter |
| Richards.WorkerTask.Run | test/scripts/input/richards.exec.rest.js:412-437 | with no packet it suspends and nothing else changes. With a packet it switches handler, zeroes the packet's cursor, fills the payload with the next DATA_SIZE counter values, and queues the packet to the new handler. On each path only the fields that path writes may change |
| Richards.WorkerTask.Send | test/scripts/input/richards.exec.rest.js:422-436 | the packet path of run: the prepared packet is queued to the other handler; only the worker, the packet, queueCount and that handler's queue may change |
| Richards.WorkerTask.Prepare | test/scripts/input/richards.exec.rest.js:422-435 | the target switches between handlers A and B, the packet is addressed to it with cursor 0, and its payload is `Data(v2, DATA_SIZE)` |
| Richards.HandlerTask.constructor | test/scripts/input/richards.exec.rest.js:99-108 | the given scheduler and two empty lists |
| Richards.HandlerTask.Run | test/scripts/input/richards.exec.rest.js:440-471 | filing, then dispatch; the invariant holds, the counters do not go down, and the block returned is null or registered |
| Richards.HandlerTask.File | test/scripts/input/richards.exec.rest.js:447-452 | a delivered packet is appended to the work list or to the device list according to its kind, and the other list is unchanged |
| Richards.HandlerTask.FileWork | test/scripts/input/richards.exec.rest.js:448-449 | the work packet is appended to the work list |
| Richards.HandlerTask.FileDevice | test/scripts/input/richards.exec.rest.js:450-451 | the device packet is appended to the device list |
| Richards.HandlerTask.Dispatch | test/scripts/input/richards.exec.rest.js:454-471 | a work packet whose cursor is below DATA_SIZE, with a device packet available, sends the head device packet loaded with the datum at the cursor, and the cursor advances. A work packet whose cursor has reached DATA_SIZE is popped and queued back. Otherwise the handler suspends with its lists unchanged. On each path only the fields that path writes may change |
| Richards.HandlerTask.SendDatum | test/scripts/input/richards.exec.rest.js:458-463 | the head device packet takes the datum at the work packet's cursor, the cursor advances by 1, and the device packet is popped and queued |
| Richards.HandlerTask.LoadDatum | test/scripts/input/richards.exec.rest.js:461-462 | the head device packet's cursor takes the work payload at the work cursor, and the work cursor advances by 1 |
| Richards.HandlerTask.SendDevicePacket | test/scripts/input/richards.exec.rest.js:459-463 | the head device packet leaves the device list and is queued to the id it carries |
| Richards.HandlerTask.TakeDevicePacket | test/scripts/input/richards.exec.rest.js:459-460 | the head device packet leaves the device list and is in transit |
| Richards.HandlerTask.ReturnWork | test/scripts/input/richards.exec.rest.js:465-468 | the finished head work packet leaves the work list and is queued to the id it carries |
| Richards.HandlerTask.TakeWorkPacket | test/scripts/input/richards.exec.rest.js:466-467 | the head work packet leaves the work list and is in transit |
| Benchmark.Prepend | test/scripts/input/richards.exec.rest.js:14-15 | `new Packet(queue, id, kind)` starts a queue one packet longer, with the new packet in front |
| Benchmark.WorkPackets | test/scripts/input/richards.exec.rest.js:14-15 | two fresh WORK packets addressed to the worker, linked as a queue |
| Benchmark.DevicePackets | test/scripts/input/richards.exec.rest.js:17-19 | three fresh DEVICE packets addressed to the given device, linked as a queue |
| Benchmark.AddIdle | test/scripts/input/richards.exec.rest.js:13 | the idle block, RUNNING with seed 1, count COUNT and an empty queue, joins the list; no other slot changes; counters unchanged |
| Benchmark.EnlistWorker | test/scripts/input/richards.exec.rest.js:14-16 | the worker, with priority 1000 and its two work packets, is added SUSPENDED_RUNNABLE |
| Benchmark.AddWorker | test/scripts/input/richards.exec.rest.js:14-16 | the worker block joins the list SUSPENDED_RUNNABLE with two work packets, addressing handler A with counter 0; no other slot changes; counters unchanged |
| Benchmark.EnlistHandler | test/scripts/input/richards.exec.rest.js:17-24 | a handler, with priority 1000 times its id and three device packets, is added SUSPENDED_RUNNABLE |
| Benchmark.AddHandler | test/scripts/input/richards.exec.rest.js:17-24 | a handler block joins the list SUSPENDED_RUNNABLE with empty lists and three packets for its device; no other slot changes; counters unchanged |
| Benchmark.AddDevice | test/scripts/input/richards.exec.rest.js:25-26 | a device block joins the list SUSPENDED with an empty queue and no kept packet; no other slot changes; counters unchanged |
| Benchmark.AddNext | test/scripts/input/richards.exec.rest.js:13-26 | the set-up's lines for one id: its block joins the list in its initial state and no other slot changes; counters unchanged |
| Benchmark.AddFrom | test/scripts/input/richards.exec.rest.js:13-26 | the set-up's lines for the ids from n on, in order of id: every id then holds a block, the blocks added are in their initial states, and the earlier slots are unchanged |
| Benchmark.Setup | test/scripts/input/richards.exec.rest.js:12-26 | every id holds a block. The list runs from device B down to the idle task, and each block has priority 1000 times its id and the behaviour its id names. The idle task is RUNNING with seed 1 and count COUNT; the worker is SUSPENDED_RUNNABLE with two WORK packets for itself, addressing handler A; each handler is SUSPENDED_RUNNABLE with empty lists and three DEVICE packets for its device; each device is SUSPENDED with an empty queue and no kept packet. Both counters are 0 and the invariant holds |
| Benchmark.RunRichards | test/scripts/input/richards.exec.rest.js:12-31 | the run is cut short exactly when a block is still current; otherwise it passes exactly when queueCount is 2322 and holdCount is 928, and a failure reports the scheduler's own counters, of which at least one differs from its expected total |

## Left out

- The scope-capture and serialization instrumentation (`Σ.Scope`, `addFunction` and the prototype wiring) and the messaging bootstrap are left out. They move code between machines and do not change the simulation.
- `BM_Start` and its re-entry through `setImmediate` are left out: they do timing through `Date.now`, and CPU and memory reporting to a parent process with random timeouts. Only the counter check of `runRichards` is kept.
- The `toString` methods are left out; they return fixed strings.
- The IoT benchmark samples (`Average.js`, `SimpleLinearRegression.js`) are not part of this model. They do file reads, JSON parsing and floating-point statistics, with no scheduling logic.
- Benchmark.RunRichards: that the canonical run reaches the totals 2322 and 928, and so passes, is not proved. That would take the verifier through thousands of dispatches. The contract ties the verdict to the final counters in both directions.
- Richards.Scheduler.Schedule: the program loops until the cursor is null. The model bounds the walk by `fuel` steps and reports whether it finished. `OutOfSteps` is a verdict of the model only.
- Richards.TaskControlBlock.Run: the contract states only what every step keeps. The exact effect is stated by `Receive` and by each task's `Run`.
- Richards.HandlerTask.Run: the contract states only what every step keeps. The exact effect is stated by `File` and `Dispatch`.
- Richards.Scheduler.Step: for a block that runs, the contract states only the new `currentId`, the invariant and the counters. The effect of the run is stated by the task's `Run`.
- Richards.TaskControlBlock.CheckPriorityAdd: requires the packet to be unlinked. Its only caller, `queue`, clears the link just before (line 315).
- Richards.HandlerTask.SendDatum: loads the datum into the device packet before popping it from the device list, while the program pops first (lines 459-462). The two steps touch different fields, so the result is the same.
- Payload slots that the program leaves `undefined` after `new Array(DATA_SIZE)` hold 0 in the model. The cursor `a1` and the payload values are natural numbers, since the program stores only non-negative values there.
- `currentId` starts as `null` in the program and as `NO_ID` (-1) in the model. Both name no block.
- Numbers are unbounded integers, except the idle task's seed and the state flags. Those are 32-bit values, because the program only handles them with bitwise operators.
- The ghost spines and packet holders are proof devices with no counterpart in the program.
