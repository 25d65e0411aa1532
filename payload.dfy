/** The data a worker task writes into the payload of a work packet: a counter that
    runs 1, 2, ..., 26 and then starts again at 1. */
module Payload {

  /** The number of payload slots of a packet. */
  const DATA_SIZE: nat := 4

  /** One step of the worker's counter: `v2++`, and back to 1 once it passes 26. */
  function NextDatum(v: nat): (r: nat)
    ensures 1 <= r <= 26
    ensures v <= 26 ==> r == v % 26 + 1
  {
    if v + 1 > 26 then 1 else v + 1
  }

  /** The counter after n steps from v. */
  function Advance(v: nat, n: nat): nat
  {
    if n == 0 then v else NextDatum(Advance(v, n - 1))
  }

  /** The n values written, in order, when the counter starts at v. */
  function Data(v: nat, n: nat): seq<nat>
  {
    if n == 0 then [] else Data(v, n - 1) + [Advance(v, n)]
  }

  /** Slot k of the data holds the counter after k + 1 steps. */
  lemma {:induction false} DataAt(v: nat, n: nat, k: nat)
    requires k < n
    ensures |Data(v, n)| == n && Data(v, n)[k] == Advance(v, k + 1)
  {
    if k < n - 1 {
      DataAt(v, n - 1, k);
    } else {
      LengthOfData(v, n - 1);
    }
  }

  lemma {:induction false} LengthOfData(v: nat, n: nat)
    ensures |Data(v, n)| == n
  {
    if n > 0 {
      LengthOfData(v, n - 1);
    }
  }

  /** Closed form of the counter: from a start in 0..26, n >= 1 steps land on
      (v + n - 1) mod 26, plus one. */
  lemma {:induction false} AdvanceClosedForm(v: nat, n: nat)
    requires v <= 26 && n >= 1
    ensures Advance(v, n) == (v + n - 1) % 26 + 1
  {
    if n > 1 {
      AdvanceClosedForm(v, n - 1);
      ModStep(v + n - 2);
    }
  }

  /** Counting up by one modulo 26. */
  lemma ModStep(x: nat)
    ensures (x + 1) % 26 == if x % 26 == 25 then 0 else x % 26 + 1
  {
  }

  /** Every value written lies in 1..26, whatever the start; from a start in 0..26 the
      values are consecutive modulo 26. */
  lemma DataValues(v: nat, n: nat, k: nat)
    requires k < n
    ensures |Data(v, n)| == n
    ensures 1 <= Data(v, n)[k] <= 26
    ensures v <= 26 ==> Data(v, n)[k] == (v + k) % 26 + 1
  {
    DataAt(v, n, k);
    if v <= 26 {
      AdvanceClosedForm(v, k + 1);
    }
  }
}
