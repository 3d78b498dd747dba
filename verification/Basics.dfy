/** Shared vocabulary: identifiers and the two stock result shapes. */
module Basics {
  // ULIDs, UUID prefixes and resource ids are all opaque text to the code.
  type Id = string

  datatype Option<+T> = None | Some(value: T)

  datatype Result<+T, +E> = Ok(value: T) | Err(error: E)

  function Min(a: int, b: int): int { if a < b then a else b }

  function Max(a: int, b: int): int { if a < b then b else a }

  // Storage calls are numbered; an input of the model says which of them fail.
  type Faults = nat -> bool

  /** No call from number `a` up to `b` fails. */
  ghost predicate Smooth(fails: Faults, a: nat, b: nat) {
    a <= b && forall n :: a <= n < b ==> !fails(n)
  }

  lemma SmoothJoin(fails: Faults, a: nat, b: nat, c: nat)
    requires a <= b <= c
    ensures Smooth(fails, a, c) <==> Smooth(fails, a, b) && Smooth(fails, b, c)
  {
  }

  /** One more call. */
  lemma SmoothStep(fails: Faults, a: nat, b: nat)
    requires a <= b
    ensures Smooth(fails, a, b + 1) <==> Smooth(fails, a, b) && !fails(b)
    ensures Smooth(fails, a, a)
  {
  }
}
