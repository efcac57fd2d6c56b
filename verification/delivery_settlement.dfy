/**
 The settlement boundary of one delivery: facts deferred during a handler are published once, and only after the driver
 settled the delivery. Publication runs outside the lock, so it interleaves with late deferrals and repeated commits.
 */
module DeliverySettlements {

  /** `taken` are the callbacks a commit removed and has not run yet; `deferred` is everything ever deferred. */
  datatype Boundary = Boundary(
    committed: bool, callbacks: seq<string>, taken: seq<string>, published: seq<string>, deferred: multiset<string>)

  datatype Step = Defer(fact: string) | CommitLocked | PublishNext

  predicate Enabled(b: Boundary, step: Step) {
    step.PublishNext? ==> b.taken != []
  }

  /** One critical section, or one publication of the commit in progress. */
  function Do(b: Boundary, step: Step): Boundary
    requires Enabled(b, step)
  {
    match step
    case Defer(fact) =>
      if b.committed then b.(published := b.published + [fact], deferred := b.deferred + multiset{fact})
      else b.(callbacks := b.callbacks + [fact], deferred := b.deferred + multiset{fact})
    case CommitLocked =>
      if b.committed then b else b.(committed := true, callbacks := [], taken := b.callbacks)
    case PublishNext => b.(published := b.published + [b.taken[0]], taken := b.taken[1..])
  }

  ghost predicate IsRun(b: Boundary, steps: seq<Step>, end: Boundary)
    decreases |steps|
  {
    if steps == [] then end == b
    else Enabled(b, steps[0]) && IsRun(Do(b, steps[0]), steps[1..], end)
  }

  const NEW_BOUNDARY := Boundary(false, [], [], [], multiset{})

  predicate Inv(b: Boundary) {
    && b.deferred == multiset(b.callbacks) + multiset(b.taken) + multiset(b.published)
    && (b.committed ==> b.callbacks == [])
    && (!b.committed ==> b.published == [] && b.taken == [])
  }

  lemma StepKeepsInv(b: Boundary, step: Step)
    requires Inv(b) && Enabled(b, step)
    ensures Inv(Do(b, step))
  {
    if step.PublishNext? {
      assert b.taken == [b.taken[0]] + b.taken[1..];
    }
  }

  lemma {:induction false} RunKeepsInv(b: Boundary, steps: seq<Step>, end: Boundary)
    requires Inv(b) && IsRun(b, steps, end)
    ensures Inv(end)
    decreases |steps|
  {
    if steps != [] {
      StepKeepsInv(b, steps[0]);
      RunKeepsInv(Do(b, steps[0]), steps[1..], end);
    }
  }

  /**
   Conservation over every interleaving of deferrals and commits: nothing is published before the first commit, and
   once its publications are done every deferred fact has been published exactly as often as it was deferred.
   */
  lemma FactsArePublishedOnce(steps: seq<Step>, end: Boundary)
    requires IsRun(NEW_BOUNDARY, steps, end)
    ensures !end.committed ==> end.published == []
    ensures end.committed && end.taken == [] ==> multiset(end.published) == end.deferred
    ensures multiset(end.published) <= end.deferred
  {
    RunKeepsInv(NEW_BOUNDARY, steps, end);
  }

  /** The object between two critical sections, with the log of its publications. */
  class DeliverySettlement {
    var committed: bool
    var applicationStateCommitted: bool
    var callbacks: seq<string>
    var published: seq<string>

    constructor ()
      ensures !committed && !applicationStateCommitted && callbacks == [] && published == []
    {
      committed, applicationStateCommitted, callbacks, published := false, false, [], [];
    }

    method MarkApplicationStateCommitted()
      modifies `applicationStateCommitted
      ensures applicationStateCommitted
    {
      applicationStateCommitted := true;
    }

    method DeferCommit(fact: string)
      modifies `callbacks, `published
      ensures callbacks == if committed then old(callbacks) else old(callbacks) + [fact]
      ensures published == if committed then old(published) + [fact] else old(published)
    {
      if !committed {
        callbacks := callbacks + [fact];
        return;
      }
      published := published + [fact];
    }

    /** Publishes every deferred fact in order; repeating it publishes nothing. */
    method Commit()
      modifies `committed, `callbacks, `published
      ensures committed && callbacks == if old(committed) then old(callbacks) else []
      ensures published == if old(committed) then old(published) else old(published) + old(callbacks)
    {
      if committed {
        return;
      }
      committed := true;
      var taken := callbacks;
      callbacks := [];
      for i := 0 to |taken|
        invariant committed && callbacks == [] && published == old(published) + taken[..i]
      {
        published := published + [taken[i]];
      }
      assert taken[..|taken|] == taken;
    }
  }
}
