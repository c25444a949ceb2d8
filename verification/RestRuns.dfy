/** How long a failing account stays out of the pool. */
module RestRuns {
  import opened Basics
  import opened Settlement
  import opened SettlementRuns

  /** Settling restarts the rest of everyone charged, and touches nobody else's. */
  lemma {:induction false} SettlingRestarts(p: Pool, policy: Policy, bill: seq<Incident>, now: int, name: Name)
    requires RestsExactly(p, policy) && forall i :: i in bill ==> i.failure != Some(Expired)
    ensures var after := SettleTo(p, policy, bill, now);
            if Times(bill, name) > 0 then name in after.cooldownUntil ==> after.cooldownUntil[name] == now + policy.rest
            else (name in after.cooldownUntil <==> name in p.cooldownUntil)
                 && (name in p.cooldownUntil ==> after.cooldownUntil[name] == p.cooldownUntil[name])
  {
    if bill != [] {
      var front, last := bill[..|bill| - 1], bill[|bill| - 1];
      assert last in bill;
      SettlingRestarts(p, policy, front, now, name);
      SettlingKeepsRests(p, policy, front, now);
    }
  }

  /** When the last sweep that charged the account was settled. */
  function LastCharge(policy: Policy, accounts: seq<Login>, scripts: seq<Script>, name: Name): int
    requires Fits(accounts, scripts)
  {
    if scripts == [] then 0
    else
      var before, last := scripts[..|scripts| - 1], scripts[|scripts| - 1];
      assert last in scripts;
      if Charges(After(policy, accounts, before), accounts, last, name) > 0 then last.now
      else LastCharge(policy, accounts, before, name)
  }

  lemma SweepRestarts(p: Pool, policy: Policy, accounts: seq<Login>, s: Script, name: Name)
    requires |accounts| == |s.turns| <= |s.visits| && RestsExactly(p, policy)
    ensures var after := Swept(p, policy, accounts, s);
            name in after.cooldownUntil ==>
              if Charges(p, accounts, s, name) > 0 then after.cooldownUntil[name] == s.now + policy.rest
              else name in p.cooldownUntil && after.cooldownUntil[name] == p.cooldownUntil[name]
  {
    var d := Gathered(p, accounts, s);
    GatheringIsOrderly(p, accounts, s);
    hide Gathered, CauseOf;
    var cleared := AllSucceeded(d.pool, Clean(d));
    forall n
      ensures Count(cleared, n) == if n in Clean(d) then 0 else Count(p, n)
    {
    }
    assert RestsExactly(cleared, policy);
    SettlingRestarts(cleared, policy, Bill(d, s), s.now, name);
  }

  lemma {:induction false} RestsRunFromTheLastCharge(policy: Policy, accounts: seq<Login>, scripts: seq<Script>,
                                                     name: Name)
    requires Fits(accounts, scripts)
    ensures var p := After(policy, accounts, scripts);
            name in p.cooldownUntil ==>
              p.cooldownUntil[name] == LastCharge(policy, accounts, scripts, name) + policy.rest
  {
    if scripts != [] {
      var before, last := scripts[..|scripts| - 1], scripts[|scripts| - 1];
      assert last in scripts;
      RestsRunFromTheLastCharge(policy, accounts, before, name);
      RestsAreExact(policy, accounts, before);
      SweepRestarts(After(policy, accounts, before), policy, accounts, last, name);
    }
  }

  /** Over every run, shared names included: an account is out of the pool exactly while a rest is configured, its
      counter has reached the threshold, and less than that rest has passed since the last sweep that charged it. */
  lemma OutOfThePoolExactly(policy: Policy, accounts: seq<Login>, scripts: seq<Script>, name: Name, t: int)
    requires Fits(accounts, scripts)
    ensures var p := After(policy, accounts, scripts);
            !Available(p, name, t) <==>
            && policy.rest > 0 && Count(p, name) >= Threshold(policy)
            && t < LastCharge(policy, accounts, scripts, name) + policy.rest
  {
    RestsAreExact(policy, accounts, scripts);
    RestsRunFromTheLastCharge(policy, accounts, scripts, name);
    hide After, LastCharge;
  }
}
