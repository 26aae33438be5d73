/** The records of the BEAR claim canister (bear-claim-canister/src/lib.rs),
    with the values their `Default` implementations give. */
module BearTypes {
  import opened IcTypes

  /** USD * 1e6. */
  type Microusd = U64
  /** BEAR base units. */
  type Tokens = U128
  /** ICP e8s. */
  type E8s = U64
  /** Seconds. */
  type Timestamp = U64

  datatype Account = Account(owner: Principal, subaccount: Option<seq<U8>>)

  const DEFAULT_ACCOUNT: Account := Account(ANONYMOUS, None)

  datatype SnapshotRow = SnapshotRow(owner: Principal, bearTokens: Tokens)

  datatype ContribRow = ContribRow(owner: Principal, icpE8s: E8s)

  datatype SlotStatus = Pending | Ready | Staked | Claimed

  datatype LadderSlot = LadderSlot(
    slotIndex: U8,
    dissolveDelaySeconds: U64,
    amount: Tokens,
    status: SlotStatus,
    neuronId: Option<U64>)

  datatype PointsBreakdown = PointsBreakdown(holderPoints: U64, contributorPoints: U64, totalPoints: U64)

  datatype ClaimPreview = ClaimPreview(
    totalAllocation: Tokens,
    ladder: seq<LadderSlot>,
    pointsBreakdown: PointsBreakdown,
    perPrincipalCapTokens: Tokens,
    withinCap: bool)

  datatype Weights = Weights(wHolder: U32, wContrib: U32)

  datatype InitConfig = InitConfig(
    snsRoot: Principal,
    snsGovernance: Principal,
    snsLedger: Principal,
    icpLedger: Option<Principal>,
    airdropPoolAccount: Account,
    icpUsdRateMicrousdPerIcp: Microusd,
    claimStart: Timestamp,
    claimEnd: Timestamp,
    perPrincipalMaxTokens: Tokens,
    minBearStakeRequired: Tokens,
    iiRateLimitPerDay: U32,
    weights: Weights)

  const DEFAULT_CONFIG: InitConfig :=
    InitConfig(ANONYMOUS, ANONYMOUS, ANONYMOUS, None, DEFAULT_ACCOUNT, 0, 0, 0, 0, 0, 0, Weights(0, 0))

  datatype ClaimRecord = ClaimRecord(
    totalAllocation: Tokens,
    ladder: seq<LadderSlot>,
    claimedSlots: set<U8>,
    lastClaimTs: Option<Timestamp>)

  /** The whole persistent state, as `pre_upgrade` saves it and
      `post_upgrade` restores it. */
  datatype State = State(
    admins: set<Principal>,
    config: InitConfig,
    poolBalance: Tokens,
    claimWindow: (Timestamp, Timestamp),
    snapshot: map<Principal, Tokens>,
    contribs: map<Principal, E8s>,
    totalPoints: U64,
    userPoints: map<Principal, U64>,
    claims: map<Principal, ClaimRecord>,
    claimedCount: U32)

  /** `State::default()`. */
  const DEFAULT_STATE: State :=
    State({}, DEFAULT_CONFIG, 0, (0, 0), map[], map[], 0, map[], map[], 0)
}
