/**
 Continuation permits: short-lived permission of a running handler to enqueue descendants. A permit is a shared object,
 so revoking it takes effect in every context it was carried into.
 */
module Permits {

  class Permit {
    const scope: nat
    var active: bool

    constructor (scope: nat)
      ensures this.scope == scope && active
    {
      this.scope := scope;
      active := true;
    }

    method Release()
      modifies this
      ensures !active
    {
      active := false;
    }
  }

  /** A context whose permits are these may continue in the scope. */
  predicate Owned(scope: nat, permits: seq<Permit>)
    reads permits
  {
    exists i :: 0 <= i < |permits| && permits[i].scope == scope && permits[i].active
  }

  method Owns(scope: nat, permits: seq<Permit>) returns (owned: bool)
    ensures owned == Owned(scope, permits)
  {
    for i := 0 to |permits|
      invariant forall j :: 0 <= j < i ==> !(permits[j].scope == scope && permits[j].active)
    {
      if permits[i].scope == scope && permits[i].active {
        return true;
      }
    }
    return false;
  }

  /** A handler context extends the permits of the context it was derived from. */
  method Issue(scope: nat, permits: seq<Permit>) returns (extended: seq<Permit>, permit: Permit)
    ensures fresh(permit) && permit.scope == scope && permit.active && extended == permits + [permit]
    ensures Owned(scope, extended)
  {
    permit := new Permit(scope);
    extended := permits + [permit];
    assert extended[|permits|] == permit;
  }

  /** Exactly the permits of both contexts. */
  predicate IsUnion(merged: seq<Permit>, a: seq<Permit>, b: seq<Permit>) {
    && (forall p :: p in merged ==> p in a || p in b)
    && (forall p :: p in a ==> p in merged) && (forall p :: p in b ==> p in merged)
  }

  /** Carries the source's permits into a replacement context, once each and by identity. */
  method Merge(source: seq<Permit>, replacement: seq<Permit>) returns (merged: seq<Permit>)
    ensures IsUnion(merged, source, replacement) && replacement <= merged
  {
    merged := replacement;
    for i := 0 to |source|
      invariant replacement <= merged
      invariant forall p :: p in merged ==> p in source || p in replacement
      invariant forall j :: 0 <= j < i ==> source[j] in merged
    {
      var found := false;
      for j := 0 to |replacement|
        invariant !found
        invariant forall k :: 0 <= k < j ==> replacement[k] != source[i]
      {
        if replacement[j] == source[i] {
          found := true;
          break;
        }
      }
      if !found {
        merged := merged + [source[i]];
      }
    }
  }

  lemma OwnedByMember(scope: nat, permits: seq<Permit>, p: Permit)
    requires p in permits && p.scope == scope && p.active
    ensures Owned(scope, permits)
  {
  }

  /**
   In every state of the permits, now or after any of them is released, the merged context may continue exactly when one
   of its parts may: merging neither grants nor prolongs permission.
   */
  lemma MergingGrantsNothing(scope: nat, merged: seq<Permit>, source: seq<Permit>, replacement: seq<Permit>)
    requires IsUnion(merged, source, replacement)
    ensures Owned(scope, merged) <==> Owned(scope, source) || Owned(scope, replacement)
  {
    if Owned(scope, merged) {
      var i :| 0 <= i < |merged| && merged[i].scope == scope && merged[i].active;
      if merged[i] in source {
        OwnedByMember(scope, source, merged[i]);
      } else {
        OwnedByMember(scope, replacement, merged[i]);
      }
    }
    if Owned(scope, source) {
      var i :| 0 <= i < |source| && source[i].scope == scope && source[i].active;
      OwnedByMember(scope, merged, source[i]);
    }
    if Owned(scope, replacement) {
      var i :| 0 <= i < |replacement| && replacement[i].scope == scope && replacement[i].active;
      OwnedByMember(scope, merged, replacement[i]);
    }
  }
}
