/** Types shared by every part of the model: optional values, results, the clock, and uuids. */
module Basics {

  datatype Option<+T> = None | Some(value: T)

  datatype Result<+T, +E> = Ok(value: T) | Err(error: E)

  /** How a call across the network goes: it answers, it never arrives, or it lands and the answer is lost. */
  datatype Fault = Answers | NeverArrives | AnswerLost

  /** An instant, or a duration, in microseconds. There is one monotone clock. */
  type Time = int

  function Pow16(n: nat): (p: nat)
    ensures p > 0
  {
    if n == 0 then 1 else 16 * Pow16(n - 1)
  }

  /** A uuid is a 128-bit number; its text form is `UuidText` in module Artifacts. */
  newtype Uuid = n: int | 0 <= n < Pow16(32) witness 0

  function Max(a: int, b: int): int {
    if a < b then b else a
  }

  function Min(a: int, b: int): int {
    if a < b then a else b
  }

  /** There is always a number not yet in use. */
  lemma {:induction false} FreeNumber(taken: set<nat>) returns (n: nat)
    ensures forall t :: t in taken ==> t < n
    decreases taken
  {
    if taken == {} {
      n := 0;
    } else {
      var t :| t in taken;
      var rest := FreeNumber(taken - {t});
      n := rest + t + 1;
      assert taken == taken - {t} + {t};
    }
  }
}
