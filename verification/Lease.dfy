/**
  The console lease of one target key and the manager that owns one lease per key. A lease
  token is named by the ownership generation it was granted at.
 */
module Leases {
  import opened Common

  datatype LeaseOwner = Free | Provisioner | Transport

  datatype LeaseError = InvalidOwner | LeaseConflict

  datatype LeaseView = LeaseView(owner: LeaseOwner, token: Option<nat>, generation: nat) {
    predicate Consistent() {
      (owner.Free? <==> token.None?) && (token.Some? ==> token.value == generation)
    }

    function Acquire(who: LeaseOwner): LeaseView {
      if who.Free? || !owner.Free? then this else LeaseView(who, Some(generation + 1), generation + 1)
    }

    function Release(t: nat): LeaseView {
      if token == Some(t) then this.(owner := Free, token := None) else this
    }

    function Revoke(): LeaseView {
      LeaseView(Free, None, generation + 1)
    }
  }

  const Unleased := LeaseView(Free, None, 0)

  class ConsoleLease {
    const target: TargetKey
    var owner: LeaseOwner
    var token: Option<nat>
    var generation: nat

    function View(): LeaseView
      reads this
    {
      LeaseView(owner, token, generation)
    }

    constructor (target: TargetKey)
      ensures this.target == target && View() == Unleased
    {
      this.target := target;
      owner, token, generation := Free, None, 0;
    }

    method Acquire(who: LeaseOwner) returns (r: Result<nat, LeaseError>)
      modifies this
      ensures View() == old(View()).Acquire(who)
      ensures r == if who.Free? then Err(InvalidOwner)
                   else if !old(owner).Free? then Err(LeaseConflict)
                   else Ok(old(generation) + 1)
      ensures r.Ok? ==> View() == LeaseView(who, Some(r.value), r.value)
      ensures r.Err? ==> View() == old(View())
    {
      if who.Free? {
        return Err(InvalidOwner);
      }
      if !owner.Free? {
        return Err(LeaseConflict);
      }
      owner := who;
      generation := generation + 1;
      token := Some(generation);
      return Ok(generation);
    }

    method Release(t: nat) returns (freed: bool)
      modifies this
      ensures View() == old(View()).Release(t)
      ensures freed <==> old(token) == Some(t)
      ensures View() == if freed then LeaseView(Free, None, old(generation)) else old(View())
    {
      if token.None? || token.value != t {
        return false;
      }
      owner, token := Free, None;
      return true;
    }

    method Revoke()
      modifies this
      ensures View() == old(View()).Revoke()
      ensures View() == LeaseView(Free, None, old(generation) + 1)
    {
      owner, token, generation := Free, None, generation + 1;
    }
  }

  class ConsoleLeaseManager {
    var leases: map<TargetKey, ConsoleLease>

    ghost function Repr(): set<object>
      reads this
    {
      set k | k in leases :: leases[k]
    }

    ghost predicate Valid()
      reads this, Repr()
    {
      forall k | k in leases :: leases[k].target == k && leases[k].View().Consistent()
    }

    /** A key no lease was ever made for reads as free. */
    function View(k: TargetKey): LeaseView
      reads this, if k in leases then {leases[k]} else {}
    {
      if k in leases then leases[k].View() else Unleased
    }

    constructor ()
      ensures Valid() && Repr() == {} && forall k :: View(k) == Unleased
    {
      leases := map[];
    }

    method LeaseFor(k: TargetKey) returns (lease: ConsoleLease)
      requires Valid()
      modifies this
      ensures Valid() && k in leases && leases[k] == lease && fresh(Repr() - old(Repr()))
      ensures leases == old(leases)[k := lease]
      ensures k in old(leases) ==> lease == old(leases)[k]
      ensures lease.View() == old(View(k))
      ensures forall other | other != k :: View(other) == old(View(other))
    {
      if k !in leases {
        lease := new ConsoleLease(k);
        leases := leases[k := lease];
      }
      lease := leases[k];
    }

    method Acquire(k: TargetKey, who: LeaseOwner) returns (r: Result<nat, LeaseError>)
      requires Valid()
      modifies this, Repr()
      ensures Valid() && fresh(Repr() - old(Repr()))
      ensures r == if who.Free? then Err(InvalidOwner)
                   else if !old(View(k)).owner.Free? then Err(LeaseConflict)
                   else Ok(old(View(k)).generation + 1)
      ensures View(k) == old(View(k)).Acquire(who)
      ensures forall other | other != k :: View(other) == old(View(other))
    {
      var lease := LeaseFor(k);
      r := lease.Acquire(who);
    }

    method Release(k: TargetKey, t: nat) returns (freed: bool)
      requires Valid()
      modifies this, Repr()
      ensures Valid() && fresh(Repr() - old(Repr()))
      ensures freed <==> old(View(k)).token == Some(t)
      ensures View(k) == old(View(k)).Release(t)
      ensures forall other | other != k :: View(other) == old(View(other))
    {
      var lease := LeaseFor(k);
      freed := lease.Release(t);
    }

    method Revoke(k: TargetKey)
      requires Valid()
      modifies this, Repr()
      ensures Valid() && fresh(Repr() - old(Repr()))
      ensures View(k) == old(View(k)).Revoke()
      ensures forall other | other != k :: View(other) == old(View(other))
    {
      var lease := LeaseFor(k);
      lease.Revoke();
    }
  }

  // ----- tokens over whole runs

  datatype LeaseCall = Acquire(who: LeaseOwner) | Release(t: nat) | Revoke

  function Call(l: LeaseView, c: LeaseCall): LeaseView {
    match c
    case Acquire(who) => l.Acquire(who)
    case Release(t) => l.Release(t)
    case Revoke => l.Revoke()
  }

  function Calls(l: LeaseView, cs: seq<LeaseCall>): LeaseView
    decreases |cs|
  {
    if cs == [] then l else Calls(Call(l, cs[0]), cs[1..])
  }

  /** A token that no longer holds the lease never holds it again: releasing it later frees nobody. */
  lemma {:induction false} DeadLeaseStaysDead(l: LeaseView, cs: seq<LeaseCall>, t: nat)
    requires l.Consistent() && t <= l.generation && l.token != Some(t)
    ensures var v := Calls(l, cs);
            v.Consistent() && t <= l.generation <= v.generation && v.token != Some(t) && v.Release(t) == v
    decreases |cs|
  {
    if cs != [] {
      DeadLeaseStaysDead(Call(l, cs[0]), cs[1..], t);
    }
  }
}
