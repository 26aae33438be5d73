/** The flat airdrop bookkeeping canister (airdrop/lib.rs): a map from
    participant to accumulated ICP and a treasury counter. A hard-coded admin
    runs the payout loop, which only does the treasury's bookkeeping: each
    payout equals the participant's contribution (1:1) and is deducted, and
    no transfer is made, because the ledger call is still a TODO. The map is
    a `HashMap`, so the order in which the payout loop visits participants
    is arbitrary; every property below holds for every order. */
module Airdrop {
  import opened IcTypes

  const ADMIN: Principal := Principal("pkt5m-vzera-uztne-or4se-vgejr-xajuz-ulw55-zdxon-3euz7-gvakp-5qe")

  const MSG_SET_TREASURY: string := "Only admin can set treasury"
  const MSG_RUN_AIRDROP: string := "Only admin can run airdrop"

  // ---------------------------------------------------------------------
  // Iteration order

  predicate Distinct(s: seq<Principal>) {
    forall i, j :: 0 <= i < j < |s| ==> s[i] != s[j]
  }

  /** `s` lists every element of `keys` exactly once, in some order. */
  predicate Enumerates(s: seq<Principal>, keys: set<Principal>) {
    && Distinct(s)
    && (forall i :: 0 <= i < |s| ==> s[i] in keys)
    && (forall k :: k in keys ==> k in s)
  }

  /** Iterating a `HashMap`'s keys: some order, not a known one. */
  method Enumerate(keys: set<Principal>) returns (s: seq<Principal>)
    ensures Enumerates(s, keys)
  {
    var rest := keys;
    s := [];
    while rest != {}
      invariant rest <= keys
      invariant Distinct(s)
      invariant forall i :: 0 <= i < |s| ==> s[i] in keys && s[i] !in rest
      invariant forall k :: k in keys ==> k in s || k in rest
      decreases rest
    {
      var k :| k in rest;
      s := s + [k];
      rest := rest - {k};
    }
  }

  // ---------------------------------------------------------------------
  // Sums and payouts

  function Sum(amounts: seq<nat>): nat {
    if amounts == [] then 0 else amounts[0] + Sum(amounts[1..])
  }

  lemma {:induction false} SumSnoc(amounts: seq<nat>, i: nat)
    requires i < |amounts|
    ensures Sum(amounts[..i + 1]) == Sum(amounts[..i]) + amounts[i]
  {
    if i > 0 {
      assert amounts[..i + 1][1..] == amounts[1..][..i];
      assert amounts[..i][1..] == amounts[1..][..i - 1];
      SumSnoc(amounts[1..], i - 1);
    }
  }

  /** The contributions of the participants in `order`. */
  function Payouts(m: map<Principal, U64>, order: seq<Principal>): seq<nat>
    requires forall i :: 0 <= i < |order| ==> order[i] in m
  {
    seq(|order|, i requires 0 <= i < |order| => m[order[i]])
  }

  /** The sum of `m` over `keys`, in no particular order. */
  ghost function SumOver(m: map<Principal, U64>, keys: set<Principal>): nat
    requires keys <= m.Keys
    decreases keys
  {
    if keys == {} then 0 else var k :| k in keys; m[k] + SumOver(m, keys - {k})
  }

  /** All contributions together. */
  ghost function TotalContributions(m: map<Principal, U64>): nat {
    SumOver(m, m.Keys)
  }

  /** Any key may be taken out first. */
  lemma {:induction false} SumOverPick(m: map<Principal, U64>, keys: set<Principal>, k: Principal)
    requires keys <= m.Keys && k in keys
    ensures SumOver(m, keys) == m[k] + SumOver(m, keys - {k})
    decreases keys
  {
    var j :| j in keys && SumOver(m, keys) == m[j] + SumOver(m, keys - {j});
    if j != k {
      SumOverPick(m, keys - {j}, k);
      SumOverPick(m, keys - {k}, j);
      assert keys - {j} - {k} == keys - {k} - {j};
    }
  }

  /** Paying in any order pays out the same total. */
  lemma {:induction false} SumOfEnumeration(m: map<Principal, U64>, order: seq<Principal>, keys: set<Principal>)
    requires keys <= m.Keys && Enumerates(order, keys)
    ensures Sum(Payouts(m, order)) == SumOver(m, keys)
  {
    if order == [] {
      assert keys == {};
    } else {
      var k := order[0];
      var tail := order[1..];
      assert Enumerates(tail, keys - {k}) by {
        forall x | x in keys - {k} ensures x in tail {
          var i :| 0 <= i < |order| && order[i] == x;
          assert i != 0;
          assert tail[i - 1] == x;
        }
        forall i | 0 <= i < |tail| ensures tail[i] in keys - {k} {
          assert tail[i] == order[i + 1] && order[0] != order[i + 1];
        }
      }
      SumOfEnumeration(m, tail, keys - {k});
      SumOverPick(m, keys, k);
      assert Payouts(m, order)[1..] == Payouts(m, tail);
    }
  }

  /** The treasury left by the payout loop: each payout it covers is
      subtracted; the first one it cannot cover empties it and ends the
      loop. */
  function AfterPayouts(treasury: nat, payouts: seq<nat>): (r: nat)
    ensures r <= treasury
  {
    if payouts == [] then treasury
    else if treasury >= payouts[0] then AfterPayouts(treasury - payouts[0], payouts[1..])
    else 0
  }

  /** What is left depends only on the total: the treasury less the total
      when it covers it, and nothing otherwise. */
  lemma {:induction false} AfterPayoutsTotal(treasury: nat, payouts: seq<nat>)
    ensures AfterPayouts(treasury, payouts) ==
      if Sum(payouts) <= treasury then treasury - Sum(payouts) else 0
  {
    if payouts != [] && treasury >= payouts[0] {
      AfterPayoutsTotal(treasury - payouts[0], payouts[1..]);
    }
  }

  /** So, for a whole map, the outcome is the same in every order. */
  lemma AirdropOutcome(m: map<Principal, U64>, order: seq<Principal>, treasury: nat)
    requires Enumerates(order, m.Keys)
    ensures AfterPayouts(treasury, Payouts(m, order)) ==
      if TotalContributions(m) <= treasury then treasury - TotalContributions(m) else 0
  {
    AfterPayoutsTotal(treasury, Payouts(m, order));
    SumOfEnumeration(m, order, m.Keys);
  }

  // ---------------------------------------------------------------------
  // The canister

  class AirdropCanister {
    var participants: map<Principal, U64>
    var treasury: U64

    constructor ()
      ensures participants == map[] && treasury == 0
    {
      participants := map[];
      treasury := 0;
    }

    /** What `p` has contributed so far; 0 for an unknown principal. */
    function Contribution(p: Principal): U64
      reads this
    {
      if p in participants then participants[p] else 0
    }

    /** `add_contribution`: anyone may add to anyone's entry. */
    method AddContribution(principal: Principal, icp: U64)
      requires Contribution(principal) + icp < U64_BOUND
      modifies this
      ensures participants == old(participants)[principal := old(Contribution(principal)) + icp]
      ensures Contribution(principal) == old(Contribution(principal)) + icp
      ensures forall q :: q != principal ==> Contribution(q) == old(Contribution(q))
      ensures treasury == old(treasury)
    {
      var current := if principal in participants then participants[principal] else 0;
      participants := participants[principal := current + icp];
    }

    /** `set_treasury`: only the hard-coded admin may set it. */
    method SetTreasury(caller: Principal, amount: U64) returns (r: Reply<()>)
      modifies this
      ensures caller != ADMIN ==> r == Trap(MSG_SET_TREASURY) && unchanged(this)
      ensures caller == ADMIN ==> r == Ok(()) && treasury == amount && participants == old(participants)
    {
      if caller != ADMIN {
        return Trap(MSG_SET_TREASURY);
      }
      treasury := amount;
      r := Ok(());
    }

    /** `monthly_airdrop`: walks the participants in the map's iteration
        order `order` and deducts each one's contribution from the treasury
        while the treasury covers it; the first payout it does not cover
        empties the treasury and stops the loop. No transfer is made.
        `paid` counts the payouts deducted before the stop. */
    method MonthlyAirdrop(caller: Principal) returns (r: Reply<()>, ghost order: seq<Principal>, ghost paid: nat)
      modifies this
      ensures participants == old(participants)
      ensures treasury <= old(treasury)
      ensures caller != ADMIN ==> r == Trap(MSG_RUN_AIRDROP) && treasury == old(treasury)
      ensures caller == ADMIN ==>
        && r == Ok(())
        && Enumerates(order, participants.Keys)
        && treasury == AfterPayouts(old(treasury), Payouts(participants, order))
        && treasury == (if TotalContributions(participants) <= old(treasury)
                        then old(treasury) - TotalContributions(participants) else 0)
        && paid <= |order|
        && Sum(Payouts(participants, order)[..paid]) <= old(treasury)
        && (paid == |order| ==> treasury == old(treasury) - Sum(Payouts(participants, order)))
        && (paid < |order| ==>
              && treasury == 0
              && old(treasury) - Sum(Payouts(participants, order)[..paid]) < participants[order[paid]])
    {
      if caller != ADMIN {
        return Trap(MSG_RUN_AIRDROP), [], 0;
      }
      var iteration := Enumerate(participants.Keys);
      order := iteration;
      ghost var amounts := Payouts(participants, iteration);
      paid := |iteration|;
      var i := 0;
      while i < |iteration|
        invariant 0 <= i <= |iteration|
        invariant participants == old(participants) && paid == |iteration|
        invariant Sum(amounts[..i]) <= old(treasury)
        invariant treasury == old(treasury) - Sum(amounts[..i])
        invariant AfterPayouts(old(treasury), amounts) == AfterPayouts(treasury, amounts[i..])
      {
        var payout := participants[iteration[i]];
        assert amounts[i..][0] == payout && amounts[i..][1..] == amounts[i + 1..];
        SumSnoc(amounts, i);
        if treasury >= payout {
          treasury := treasury - payout;
        } else {
          treasury := 0;
          paid := i;
          break;
        }
        i := i + 1;
      }
      assert amounts[..|order|] == amounts;
      AirdropOutcome(participants, order, old(treasury));
      r := Ok(());
    }

    /** `get_participants`: every participant once, in iteration order. */
    method GetParticipants() returns (ps: seq<Principal>)
      ensures Enumerates(ps, participants.Keys)
    {
      ps := Enumerate(participants.Keys);
    }

    /** `get_treasury`. */
    method GetTreasury() returns (t: U64)
      ensures t == treasury
    {
      t := treasury;
    }

    /** `get_contribution`: 0 for an unknown principal. */
    method GetContribution(principal: Principal) returns (c: U64)
      ensures principal !in participants ==> c == 0
      ensures principal in participants ==> c == participants[principal]
    {
      c := if principal in participants then participants[principal] else 0;
    }
  }
}
