/** The state of a task control block: a set of bit flags held in a JavaScript
    number and changed with the 32-bit bitwise operators `|` and `&`, hence bv32. */
module TaskState {

  type State = bv32

  const STATE_RUNNING: State := 0
  const STATE_RUNNABLE: State := 1
  const STATE_SUSPENDED: State := 2
  const STATE_HELD: State := 4
  const STATE_SUSPENDED_RUNNABLE: State := 3
  /** -5 in 32-bit two's complement: every bit but HELD. */
  const STATE_NOT_HELD: State := 0xFFFF_FFFB

  /** A state made only of the three flags. */
  predicate IsFlagState(s: State) {
    s < 8
  }

  /** markAsHeld: sets HELD and keeps every other bit. */
  function MarkHeld(s: State): (r: State)
    ensures r & STATE_HELD == STATE_HELD
    ensures r & STATE_NOT_HELD == s & STATE_NOT_HELD
    ensures r & STATE_RUNNABLE == s & STATE_RUNNABLE
  {
    s | STATE_HELD
  }

  /** markAsNotHeld: `s & STATE_NOT_HELD`, which clears HELD and keeps every other
      bit; computed here by subtracting the HELD bit when it is set. */
  function MarkNotHeld(s: State): (r: State)
    ensures r == s & STATE_NOT_HELD
    ensures r & STATE_HELD == 0
    ensures r | STATE_HELD == s | STATE_HELD
    ensures r & STATE_RUNNABLE == s & STATE_RUNNABLE
  {
    if s & STATE_HELD == 0 then s else s - STATE_HELD
  }

  /** markAsSuspended: sets SUSPENDED and keeps every other bit. */
  function MarkSuspended(s: State): (r: State)
    ensures r & STATE_SUSPENDED == STATE_SUSPENDED
    ensures r & !STATE_SUSPENDED == s & !STATE_SUSPENDED
    ensures r & STATE_RUNNABLE == s & STATE_RUNNABLE
  {
    s | STATE_SUSPENDED
  }

  /** markAsRunnable: sets RUNNABLE and keeps every other bit. */
  function MarkRunnable(s: State): (r: State)
    ensures r & STATE_RUNNABLE == STATE_RUNNABLE
    ensures r & !STATE_RUNNABLE == s & !STATE_RUNNABLE
  {
    s | STATE_RUNNABLE
  }

  /** isHeldOrSuspended: a task is skipped by the scheduler when HELD is set, or when
      its state is exactly SUSPENDED (a suspended task with a packet waiting,
      SUSPENDED_RUNNABLE, still runs). */
  function IsHeldOrSuspended(s: State): (r: bool)
    ensures s & STATE_HELD != 0 ==> r
    ensures s == STATE_SUSPENDED ==> r
    ensures s == STATE_SUSPENDED_RUNNABLE ==> !r
    ensures IsFlagState(s) ==>
      (!r <==> s == STATE_RUNNING || s == STATE_RUNNABLE || s == STATE_SUSPENDED_RUNNABLE)
  {
    s & STATE_HELD != 0 || s == STATE_SUSPENDED
  }
}
