/** Proof-of-work targets as numbers: the work they stand for and the bounds on adjusting them. */
module Target {
  import opened Core

  /** Expected work to beat a target; the program divides 2^256 - 1. */
  function TargetToWork(target: HashT): HashT
    requires target > 0
  {
    (TWO_256 - 1) / target
  }

  /** As many times as the target goes into 2^256 - 1. */
  lemma WorkExact(target: HashT)
    requires target > 0
    ensures TargetToWork(target) * target <= TWO_256 - 1 < (TargetToWork(target) + 1) * target
  {
    assert TWO_256 - 1 == TargetToWork(target) * target + (TWO_256 - 1) % target;
  }

  function MinNextTarget(target: HashT): HashT { target / 4 }

  function MaxNextTarget(params: Params, target: HashT): HashT
    requires params.Verified()
  {
    if params.maxTarget < target then params.maxTarget
    else if params.maxTarget < 4 * target then params.maxTarget
    else 4 * target
  }
}
