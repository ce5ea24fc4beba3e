/** The in-process stop-capable guard: one holder per target key, released only by its own fenced token. */
module Guards {
  import opened Common

  datatype GuardToken = GuardToken(targetKey: TargetKey, fence: nat)

  /** What the guard knows: the current holders and the last fence it gave out. */
  datatype GuardView = GuardView(holders: map<TargetKey, GuardToken>, fence: nat) {
    predicate Consistent() {
      forall k | k in holders :: holders[k].targetKey == k && holders[k].fence <= fence
    }

    predicate Holds(t: GuardToken) {
      t.targetKey in holders && holders[t.targetKey] == t
    }

    function Acquire(k: TargetKey): GuardView {
      if k in holders then this else GuardView(holders[k := GuardToken(k, fence + 1)], fence + 1)
    }

    function Release(k: TargetKey, t: GuardToken): GuardView {
      if t.targetKey == k && Holds(t) then this.(holders := holders - {k}) else this
    }

    function Revoke(k: TargetKey): GuardView {
      this.(holders := holders - {k})
    }
  }

  class InProcessStopCapableGuard {
    var holders: map<TargetKey, GuardToken>
    var fence: nat

    function View(): GuardView
      reads this
    {
      GuardView(holders, fence)
    }

    constructor ()
      ensures View() == GuardView(map[], 0)
    {
      holders, fence := map[], 0;
    }

    /** None is the guard conflict. */
    method Acquire(k: TargetKey) returns (t: Option<GuardToken>)
      modifies this
      ensures View() == old(View()).Acquire(k)
      ensures t.None? <==> k in old(holders)
      ensures t.Some? ==> t.value.targetKey == k && View().Holds(t.value) && t.value.fence == old(fence) + 1
    {
      if k in holders {
        return None;
      }
      fence := fence + 1;
      var token := GuardToken(k, fence);
      holders := holders[k := token];
      return Some(token);
    }

    method Release(k: TargetKey, t: GuardToken) returns (freed: bool)
      modifies this
      ensures View() == old(View()).Release(k, t)
      ensures freed <==> t.targetKey == k && k in old(holders) && old(holders)[k] == t
      ensures holders == (if freed then old(holders) - {k} else old(holders)) && fence == old(fence)
    {
      if t.targetKey != k {
        return false;
      }
      if k !in holders || holders[k] != t {
        return false;
      }
      holders := holders - {k};
      return true;
    }

    method Revoke(k: TargetKey)
      modifies this
      ensures View() == old(View()).Revoke(k)
      ensures holders == old(holders) - {k} && fence == old(fence)
    {
      holders := holders - {k};
    }
  }

  // ----- tokens over whole runs

  datatype GuardCall = Acquire(k: TargetKey) | Release(k: TargetKey, t: GuardToken) | Revoke(k: TargetKey)

  function Call(g: GuardView, c: GuardCall): GuardView {
    match c
    case Acquire(k) => g.Acquire(k)
    case Release(k, t) => g.Release(k, t)
    case Revoke(k) => g.Revoke(k)
  }

  function Calls(g: GuardView, cs: seq<GuardCall>): GuardView
    decreases |cs|
  {
    if cs == [] then g else Calls(Call(g, cs[0]), cs[1..])
  }

  /**
    A token that does not hold its key any more never holds it again, so releasing it, for
    whatever key and however late, is a no-op: a stale holder cannot free its successor.
   */
  lemma {:induction false} DeadTokenStaysDead(g: GuardView, cs: seq<GuardCall>, t: GuardToken, k: TargetKey)
    requires g.Consistent() && t.fence <= g.fence && !g.Holds(t)
    ensures var v := Calls(g, cs); v.Consistent() && !v.Holds(t) && v.Release(k, t) == v
    decreases |cs|
  {
    if cs != [] {
      DeadTokenStaysDead(Call(g, cs[0]), cs[1..], t, k);
    }
  }

  /** While a token holds its key, the only calls that end that are its own release and a revoke of that key. */
  lemma {:induction false} HolderKeepsItsKey(g: GuardView, cs: seq<GuardCall>, t: GuardToken)
    requires g.Holds(t)
    requires forall c | c in cs :: c != Release(t.targetKey, t) && c != Revoke(t.targetKey)
    ensures Calls(g, cs).Holds(t)
    decreases |cs|
  {
    if cs != [] {
      assert cs[0] in cs && forall c | c in cs[1..] :: c in cs;
      HolderKeepsItsKey(Call(g, cs[0]), cs[1..], t);
    }
  }
}
