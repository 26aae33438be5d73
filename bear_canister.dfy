/** The BEAR claim canister's global state and its entry points
    (bear-claim-canister/src/lib.rs). The host's `caller()` and `time()` are
    parameters; a trap is a `Trap` reply that leaves the state as it was. */
module BearCanister {
  import opened IcTypes
  import opened BearTypes
  import opened BearCalc

  const MSG_NOT_INITIALIZED: string := "STATE not initialized"
  const MSG_ADMIN_ONLY: string := "Admin only"
  const MSG_ALREADY_INITIALIZED: string := "Already initialized"
  const MSG_STABLE_SAVE_FAILED: string := "stable_save failed"
  const MSG_FINALIZE_SLOT: string := "finalize_slot not implemented in scaffold; wire ledger/governance calls"
  const MSG_FINALIZE_ALL: string := "finalize_all not implemented in scaffold"

  const NANOS_PER_SECOND: nat := 1_000_000_000

  /** `now()`: host time in nanoseconds, as whole seconds. */
  function Now(timeNanos: U64): (t: Timestamp)
    ensures t * NANOS_PER_SECOND <= timeNanos < (t + 1) * NANOS_PER_SECOND
  {
    timeNanos / NANOS_PER_SECOND
  }

  /** The state a first `init` installs: the caller is the only admin, the
      pool is empty, the claim window is the configured one, and nothing has
      been ingested, scored or claimed. */
  function InitialState(caller: Principal, cfg: InitConfig): (s: State)
    ensures s.admins == {caller} && caller in s.admins
    ensures s.config == cfg && s.poolBalance == 0
    ensures s.claimWindow == (cfg.claimStart, cfg.claimEnd)
    ensures s.snapshot == map[] && s.contribs == map[] && s.claims == map[]
    ensures s.totalPoints == 0 && s.userPoints == map[] && s.claimedCount == 0
  {
    DEFAULT_STATE.(config := cfg, admins := {caller}, poolBalance := 0, claimWindow := (cfg.claimStart, cfg.claimEnd))
  }

  /** `post_upgrade`'s choice: the restored state, or the default one when
      nothing could be restored. */
  function Restored(loaded: Option<State>): (s: State)
    ensures loaded.Some? ==> s == loaded.value
    ensures loaded.None? ==> s == DEFAULT_STATE
  {
    loaded.GetOr(DEFAULT_STATE)
  }

  function Min(a: nat, b: nat): (m: nat)
    ensures m <= a && m <= b && (m == a || m == b)
  {
    if a <= b then a else b
  }

  /** The canister: the fields of the one global `State`, and
      `initialized`, which stands for `INIT_DONE` (and for `STATE` being
      set: the two are only ever set together). */
  class ClaimCanister {
    var admins: set<Principal>
    var config: InitConfig
    var poolBalance: Tokens
    var claimWindow: (Timestamp, Timestamp)
    var snapshot: map<Principal, Tokens>
    var contribs: map<Principal, E8s>
    var totalPoints: U64
    var userPoints: map<Principal, U64>
    var claims: map<Principal, ClaimRecord>
    var claimedCount: U32
    var initialized: bool

    /** The state as one value, as it is saved across an upgrade. */
    function Current(): State
      reads this
    {
      State(admins, config, poolBalance, claimWindow, snapshot, contribs,
            totalPoints, userPoints, claims, claimedCount)
    }

    /** A freshly installed canister before `init` runs. */
    constructor ()
      ensures !initialized && Current() == DEFAULT_STATE
    {
      admins, config, poolBalance, claimWindow := {}, DEFAULT_CONFIG, 0, (0, 0);
      snapshot, contribs, totalPoints, userPoints := map[], map[], 0, map[];
      claims, claimedCount := map[], 0;
      initialized := false;
    }

    method Install(s: State)
      modifies this
      ensures Current() == s && initialized == old(initialized)
    {
      admins, config, poolBalance, claimWindow := s.admins, s.config, s.poolBalance, s.claimWindow;
      snapshot, contribs, totalPoints, userPoints := s.snapshot, s.contribs, s.totalPoints, s.userPoints;
      claims, claimedCount := s.claims, s.claimedCount;
    }

    // ----- Lifecycle

    /** `init`: runs once; the caller becomes the only admin, the pool is
        empty and the claim window is the configured one. */
    method Init(caller: Principal, cfg: InitConfig) returns (r: Reply<()>)
      modifies this
      ensures old(initialized) ==> r == Trap(MSG_ALREADY_INITIALIZED) && unchanged(this)
      ensures !old(initialized) ==> r == Ok(()) && initialized && Current() == InitialState(caller, cfg)
      ensures !old(initialized) ==>
        && admins == {caller}
        && poolBalance == 0
        && claimWindow == (cfg.claimStart, cfg.claimEnd)
        && config == cfg
        && snapshot == map[] && contribs == map[] && claims == map[]
    {
      if initialized {
        return Trap(MSG_ALREADY_INITIALIZED);
      }
      initialized := true;
      var s := DEFAULT_STATE;
      s := s.(config := cfg);
      s := s.(admins := s.admins + {caller});
      s := s.(poolBalance := 0);
      s := s.(claimWindow := (cfg.claimStart, cfg.claimEnd));
      Install(s);
      r := Ok(());
    }

    /** `pre_upgrade`: saves the whole state. It traps when there is none,
        and when stable memory refuses the save (`saveOk` is the outcome of
        `stable_save`, which the host decides). */
    method PreUpgrade(saveOk: bool) returns (r: Reply<State>)
      ensures r.Ok? <==> initialized && saveOk
      ensures r.Ok? ==> r.value == Current()
      ensures !initialized ==> r == Trap(MSG_NOT_INITIALIZED)
      ensures initialized && !saveOk ==> r == Trap(MSG_STABLE_SAVE_FAILED)
    {
      if !initialized {
        return Trap(MSG_NOT_INITIALIZED);
      }
      if !saveOk {
        return Trap(MSG_STABLE_SAVE_FAILED);
      }
      r := Ok(Current());
    }

    /** `post_upgrade`: installs the restored state, or the default one, and
        marks the canister initialized. */
    method PostUpgrade(loaded: Option<State>)
      modifies this
      ensures initialized
      ensures Current() == Restored(loaded)
    {
      Install(Restored(loaded));
      initialized := true;
    }

    /** An upgrade whose save and restore succeed: what `post_upgrade`
        installs is exactly what `pre_upgrade` saved. */
    method Upgrade()
      requires initialized
      modifies this
      ensures initialized && Current() == old(Current())
    {
      var saved := PreUpgrade(true);
      PostUpgrade(Some(saved.value));
    }

    // ----- Admin gating

    /** `require_admin`: passes exactly for a current admin of an
        initialized canister. */
    function RequireAdmin(caller: Principal): (r: Reply<()>)
      reads this
      ensures r.Ok? <==> initialized && caller in admins
      ensures !initialized ==> r == Trap(MSG_NOT_INITIALIZED)
      ensures initialized && caller !in admins ==> r == Trap(MSG_ADMIN_ONLY)
    {
      if !initialized then Trap(MSG_NOT_INITIALIZED)
      else if caller in admins then Ok(())
      else Trap(MSG_ADMIN_ONLY)
    }

    /** `admin_set_params`: replaces the config and the claim window. */
    method AdminSetParams(caller: Principal, cfg: InitConfig) returns (r: Reply<()>)
      modifies this
      ensures r == old(RequireAdmin(caller))
      ensures r.Trap? ==> unchanged(this)
      ensures r.Ok? ==>
        && initialized
        && Current() == old(Current()).(config := cfg, claimWindow := (cfg.claimStart, cfg.claimEnd))
    {
      r := RequireAdmin(caller);
      if r.Trap? {
        return;
      }
      config := cfg;
      claimWindow := (cfg.claimStart, cfg.claimEnd);
    }

    /** `admin_fund_pool_from_treasury`: adds to the pool, saturating at
        `u128::MAX`. */
    method AdminFundPoolFromTreasury(caller: Principal, amount: Tokens) returns (r: Reply<()>)
      modifies this
      ensures r == old(RequireAdmin(caller))
      ensures r.Trap? ==> unchanged(this)
      ensures r.Ok? ==>
        && initialized
        && Current() == old(Current()).(poolBalance := SaturatingAdd(old(poolBalance), amount))
      ensures r.Ok? ==> old(poolBalance) <= poolBalance
      ensures r.Ok? ==> poolBalance == Min(old(poolBalance) + amount, U128_MAX)
    {
      r := RequireAdmin(caller);
      if r.Trap? {
        return;
      }
      poolBalance := SaturatingAdd(poolBalance, amount);
    }

    /** `admin_ingest_snapshot`: inserts the rows one by one. */
    method AdminIngestSnapshot(caller: Principal, rows: seq<SnapshotRow>) returns (r: Reply<()>)
      modifies this
      ensures r == old(RequireAdmin(caller))
      ensures r.Trap? ==> unchanged(this)
      ensures r.Ok? ==>
        && initialized
        && Current() == old(Current()).(snapshot := Ingest(old(snapshot), SnapshotEntries(rows)))
    {
      r := RequireAdmin(caller);
      if r.Trap? {
        return;
      }
      ghost var entries := SnapshotEntries(rows);
      for i := 0 to |rows|
        invariant initialized
        invariant Current() == old(Current()).(snapshot := Ingest(old(snapshot), entries[..i]))
      {
        assert entries[..i + 1][..i] == entries[..i];
        snapshot := snapshot[rows[i].owner := rows[i].bearTokens];
      }
      assert entries[..|rows|] == entries;
    }

    /** `admin_ingest_contributions`: inserts the rows one by one. */
    method AdminIngestContributions(caller: Principal, rows: seq<ContribRow>) returns (r: Reply<()>)
      modifies this
      ensures r == old(RequireAdmin(caller))
      ensures r.Trap? ==> unchanged(this)
      ensures r.Ok? ==>
        && initialized
        && Current() == old(Current()).(contribs := Ingest(old(contribs), ContribEntries(rows)))
    {
      r := RequireAdmin(caller);
      if r.Trap? {
        return;
      }
      ghost var entries := ContribEntries(rows);
      for i := 0 to |rows|
        invariant initialized
        invariant Current() == old(Current()).(contribs := Ingest(old(contribs), entries[..i]))
      {
        assert entries[..i + 1][..i] == entries[..i];
        contribs := contribs[rows[i].owner := rows[i].icpE8s];
      }
      assert entries[..|rows|] == entries;
    }

    /** `admin_close_claims`: the window now ends at the current time. */
    method AdminCloseClaims(caller: Principal, timeNanos: U64) returns (r: Reply<()>)
      modifies this
      ensures r == old(RequireAdmin(caller))
      ensures r.Trap? ==> unchanged(this)
      ensures r.Ok? ==>
        && initialized
        && Current() == old(Current()).(claimWindow := (old(claimWindow).0, Now(timeNanos)))
    {
      r := RequireAdmin(caller);
      if r.Trap? {
        return;
      }
      claimWindow := (claimWindow.0, Now(timeNanos));
    }

    /** `admin_open_claims`: sets the claim window. */
    method AdminOpenClaims(caller: Principal, start: Timestamp, end: Timestamp) returns (r: Reply<()>)
      modifies this
      ensures r == old(RequireAdmin(caller))
      ensures r.Trap? ==> unchanged(this)
      ensures r.Ok? ==> initialized && Current() == old(Current()).(claimWindow := (start, end))
    {
      r := RequireAdmin(caller);
      if r.Trap? {
        return;
      }
      claimWindow := (start, end);
    }

    /** `admin_set_acl`: the admins become exactly the given principals; an
        empty list leaves no admin at all. */
    method AdminSetAcl(caller: Principal, newAdmins: seq<Principal>) returns (r: Reply<()>)
      modifies this
      ensures r == old(RequireAdmin(caller))
      ensures r.Trap? ==> unchanged(this)
      ensures r.Ok? ==> initialized && Current() == old(Current()).(admins := admins)
      ensures r.Ok? ==> forall p :: p in admins <==> p in newAdmins
    {
      r := RequireAdmin(caller);
      if r.Trap? {
        return;
      }
      admins := set p | p in newAdmins;
    }

    // ----- Queries

    /** The intermediate values of `compute_points` for `p` fit their u64s. */
    predicate PointsFitFor(p: Principal)
      reads this
    {
      PointsFit(if p in snapshot then snapshot[p] else 0,
                if p in contribs then contribs[p] else 0,
                config.icpUsdRateMicrousdPerIcp, config.weights)
    }

    /** The points of `p` from the current snapshot, contributions, rate
        and weights; an account missing from a map counts as 0 there. */
    function PointsOf(p: Principal): PointsBreakdown
      reads this
      requires PointsFitFor(p)
    {
      Points(if p in snapshot then snapshot[p] else 0,
             if p in contribs then contribs[p] else 0,
             config.icpUsdRateMicrousdPerIcp, config.weights)
    }

    /** `compute_points`: holder, contributor and weighted total points of
        `p`. It only reads the state. */
    method ComputePoints(p: Principal) returns (holderPts: U64, contribPts: U64, total: U64)
      requires initialized
      requires PointsFitFor(p)
      ensures PointsBreakdown(holderPts, contribPts, total) == PointsOf(p)
      ensures holderPts == DigitCount(if p in snapshot then snapshot[p] else 0)
      ensures total == config.weights.wHolder * holderPts + config.weights.wContrib * contribPts
      ensures p !in snapshot && p !in contribs ==> holderPts == 0 && contribPts == 0 && total == 0
    {
      var holder: Tokens := if p in snapshot then snapshot[p] else 0;
      holderPts := Log10Like(holder);

      var icpE8s: E8s := if p in contribs then contribs[p] else 0;
      var microUsd := IcpUsd(icpE8s, config.icpUsdRateMicrousdPerIcp);
      var usd: U64 := Usd(microUsd);
      contribPts := ContributorPoints(usd);

      var w1 := config.weights.wHolder;
      var w2 := config.weights.wContrib;
      assert 0 <= w1 * holderPts && 0 <= w2 * contribPts;
      total := w1 * holderPts + w2 * contribPts;
      if p !in snapshot && p !in contribs {
        PointsOfNothing(config.icpUsdRateMicrousdPerIcp, config.weights);
      }
    }

    /** `preview_claim`: a flat 1% of the pool, capped per principal, laid
        out on the default ladder. Points of other accounts play no part. */
    method PreviewClaim(caller: Principal) returns (r: Reply<ClaimPreview>)
      requires initialized ==> PointsFitFor(caller)
      ensures r.Trap? <==> !initialized
      ensures r.Trap? ==> r.message == MSG_NOT_INITIALIZED
      ensures r.Ok? ==>
        var preview := r.value;
        && preview.totalAllocation == Min(poolBalance / 100, config.perPrincipalMaxTokens)
        && preview.ladder == DefaultLadder(preview.totalAllocation)
        && preview.pointsBreakdown == PointsBreakdown(0, 0, PointsOf(caller).totalPoints)
        && preview.perPrincipalCapTokens == config.perPrincipalMaxTokens
        && preview.withinCap
    {
      if !initialized {
        return Trap(MSG_NOT_INITIALIZED);
      }
      var _, _, tp := ComputePoints(caller);
      var indicative: Tokens := poolBalance / 100;
      var capped: Tokens := Min(indicative, config.perPrincipalMaxTokens);
      var ladder := DefaultLadder(capped);
      r := Ok(ClaimPreview(
        capped,
        ladder,
        PointsBreakdown(0, 0, tp),
        config.perPrincipalMaxTokens,
        capped <= config.perPrincipalMaxTokens));
    }

    /** `has_claimed`: a record exists for `of` and all eight of its slots
        are claimed. */
    method HasClaimed(of: Principal) returns (r: Reply<bool>)
      ensures r.Trap? <==> !initialized
      ensures r.Trap? ==> r.message == MSG_NOT_INITIALIZED
      ensures r.Ok? ==> (r.value <==> of in claims && |claims[of].claimedSlots| == 8)
    {
      if !initialized {
        return Trap(MSG_NOT_INITIALIZED);
      }
      r := Ok(of in claims && |claims[of].claimedSlots| == 8);
    }

    /** `get_status`: the pool balance. */
    method GetStatus() returns (r: Reply<Tokens>)
      ensures r.Trap? <==> !initialized
      ensures r.Trap? ==> r.message == MSG_NOT_INITIALIZED
      ensures r.Ok? ==> r.value == poolBalance
    {
      if !initialized {
        return Trap(MSG_NOT_INITIALIZED);
      }
      r := Ok(poolBalance);
    }

    // ----- Vesting stubs

    /** `finalize_slot`: not implemented; always an error, whatever the
        state. */
    method FinalizeSlot(slotIndex: U8) returns (r: Result<LadderSlot, string>)
      ensures r == Failure(MSG_FINALIZE_SLOT)
    {
      r := Failure(MSG_FINALIZE_SLOT);
    }

    /** `finalize_all`: not implemented; always an error. */
    method FinalizeAll() returns (r: Result<seq<LadderSlot>, string>)
      ensures r == Failure(MSG_FINALIZE_ALL)
    {
      r := Failure(MSG_FINALIZE_ALL);
    }
  }

  // ----- Scenarios

  /** A second `init` traps, whoever calls it and with whatever config. */
  method SecondInitTraps(first: Principal, second: Principal, cfg1: InitConfig, cfg2: InitConfig)
    returns (r1: Reply<()>, r2: Reply<()>, admins: set<Principal>)
    ensures r1 == Ok(())
    ensures r2 == Trap(MSG_ALREADY_INITIALIZED)
    ensures admins == {first}
  {
    var c := new ClaimCanister();
    r1 := c.Init(first, cfg1);
    r2 := c.Init(second, cfg2);
    admins := c.admins;
  }

  /** Two admins; one of them hands the ACL to a third principal, after
      which neither of the original admins passes the admin check. */
  method AclLockout(a: Principal, b: Principal, c: Principal, cfg: InitConfig)
    returns (r: Reply<()>, aAfter: Reply<()>, bAfter: Reply<()>, cAfter: Reply<()>)
    requires a != c && b != c
    ensures r == Ok(())
    ensures aAfter == Trap(MSG_ADMIN_ONLY) && bAfter == Trap(MSG_ADMIN_ONLY)
    ensures cAfter == Ok(())
  {
    var k := new ClaimCanister();
    r := k.Init(a, cfg);
    r := k.AdminSetAcl(a, [a, b]);
    r := k.AdminSetAcl(b, [c]);
    aAfter := k.AdminFundPoolFromTreasury(a, 1);
    bAfter := k.AdminOpenClaims(b, 0, 1);
    cAfter := k.AdminCloseClaims(c, 0);
  }
}
