# BEAR claim canister and airdrop bookkeeping, modelled in Dafny

This project models two Internet Computer canisters of the BEAR token distribution.

- **The claim canister** (`bear-claim-canister/src/lib.rs`) keeps one global `State`.
  It holds the admin set, the config, the pool balance, the claim window, the holder
  snapshot, the contribution ledger and the claim records. Admins fund the pool,
  ingest the two datasets, move the claim window and replace the ACL. Anyone can
  ask for a preview of their allocation and query the state.
- **The airdrop canister** (`airdrop/lib.rs`) keeps a participant→ICP map and a
  treasury counter. One hard-coded admin runs the monthly payout loop. The loop
  only keeps the treasury's books: it deducts each participant's contribution
  (1:1) while the treasury covers it, and at the first payout it does not cover it
  empties the treasury and stops. No tokens move: the ledger transfer is a TODO in
  the source.

Modules:

- `IcTypes` (`ic_types.dfy`): principals, the Rust integer widths as subset types
  (`U8` … `U128`), and `Reply` (a call either returns `Ok` or traps).
- `BearTypes` (`bear_types.dfy`): the canister's records and their `Default` values.
- `BearCalc` (`bear_calc.dfy`): the arithmetic. This covers `log10_like`, `icp_usd`,
  the two-tier contributor score, the weighted total, `default_ladder`, the
  saturating pool addition and the specification of the ingestion loops.
- `BearCanister` (`bear_canister.dfy`): class `ClaimCanister`. Its fields are the
  `State`, plus `initialized`, which stands for `INIT_DONE`.
- `Airdrop` (`airdrop.dfy`): class `AirdropCanister` and the payout loop.

Host calls are parameters. `caller()` becomes a `caller` argument. `time()` becomes
the `timeNanos` argument of `AdminCloseClaims`, and `now()` is `Now(timeNanos)`,
whole seconds.

A trap (`ic_cdk::trap`, or an `expect` in `state()` or `pre_upgrade`) is modelled as
a `Trap(message)` reply. Every contract says that the state is then unchanged. That
is the host's doing, not the code's: some calls write before they trap. `init`
sets `INIT_DONE` with `swap` and only then traps with `Already initialized`, and
`pre_upgrade` has already called `stable_save` when its `expect` fires. The host
discards every change a trapped call made, so a trap leaves no change.

`STATE` and `INIT_DONE` are only ever set together, by `init` and by `post_upgrade`.
So one flag stands for both. Before it is set, every call that reads the state traps
with `STATE not initialized`.

`HashMap` iteration order in the airdrop canister is arbitrary. `Enumerate` picks
the keys in an unspecified order, and every property of `monthly_airdrop` is proved
for every order. The final treasury turns out not to depend on the order: it is
`t - total` when the treasury `t` covers the total of all contributions, and `0`
otherwise.

`preview_claim` does not share out the pool by points. Its own comment
(`bear-claim-canister/src/lib.rs:288-289`) says that this scaffold omits the global
normalization, and that a real implementation would sum the points of all users.
The code has a flat placeholder instead: 1% of the pool, capped per principal. The
model follows the code. The account's total points are reported, but they do not
affect the allocation.

## Model

| member | source | states |
|---|---|---|
| BearCalc.DigitCount | bear-claim-canister/src/lib.rs:235-240 | the digit count is 0 exactly for 0, and never exceeds the number itself |
| BearCalc.Log10Like | bear-claim-canister/src/lib.rs:235-240 | the digit-counting loop returns the number of decimal digits of x (0 for 0) and, for x > 0, 10^(d-1) <= x < 10^d |
| BearCalc.DigitCountBounds | bear-claim-canister/src/lib.rs:235-240 | every x is below 10^digits, and a positive x is at least 10^(digits-1) |
| BearCalc.DigitCountUnique | bear-claim-canister/src/lib.rs:235-240 | the digit count is the only d with 10^(d-1) <= x < 10^d |
| BearCalc.DigitCountOfTokens | bear-claim-canister/src/lib.rs:235-238 | a u128 has at most 39 digits, so the u64 counter cannot overflow |
| BearCalc.DoublingAddsAtMostOne | bear-claim-canister/src/lib.rs:236-238 | doubling a balance adds at most one holder point |
| BearCalc.DigitCountExamples | bear-claim-canister/src/lib.rs:235-240 | 0 → 0, 9 → 1, 10 → 2, 999 → 3, 1000 → 4 |
| BearCalc.ProductFitsU128 | bear-claim-canister/src/lib.rs:244-246 | the product of two u64 values is below 2^128, so the u128 multiplication cannot overflow |
| BearCalc.IcpUsd | bear-claim-canister/src/lib.rs:242-247 | the result is the floor of e8s × rate / 1e8: r·1e8 <= e8s·rate < (r+1)·1e8, and it fits a u128 |
| BearCalc.Usd | bear-claim-canister/src/lib.rs:256 | whole USD of a micro-USD amount, rounded down: r·1e6 <= micro < (r+1)·1e6 |
| BearCalc.ContributorPoints | bear-claim-canister/src/lib.rs:257-259 | the score lies between usd and 2·usd, and equals usd exactly when usd <= 100,000 |
| BearCalc.ContributorPointsTiers | bear-claim-canister/src/lib.rs:257-259 | one point per USD up to 100,000 USD, then 100,000 + 2 per USD beyond |
| BearCalc.ContributorPointsMonotone | bear-claim-canister/src/lib.rs:257-259 | contributor points never decrease as the USD amount grows, and strictly increase |
| BearCalc.ContributorPointsExamples | bear-claim-canister/src/lib.rs:257-259 | 50,000 USD → 50,000 points; 150,000 USD → 200,000 points |
| BearCalc.Points | bear-claim-canister/src/lib.rs:249-265 | holder points are at most 39 and 0 exactly for an empty holding; contributor points are at least the USD amount; the total is at least each weighted part |
| BearCalc.PointsOfNothing | bear-claim-canister/src/lib.rs:249-265 | an account absent from both maps scores (0, 0, 0) at every rate and weight |
| BearCalc.PointsScenario | bear-claim-canister/src/lib.rs:249-265 | 999 tokens → 3 holder points; 5,000 ICP at 10 USD → 50,000 contributor points; 15,000 ICP → 200,000 |
| BearCalc.PointsMonotone | bear-claim-canister/src/lib.rs:249-265 | with fixed weights and rate, larger holdings and contributions never lower the total |
| BearCalc.DefaultLadder | bear-claim-canister/src/lib.rs:267-277 | 8 slots, slot i has index i, is Pending with no neuron, and holds an eighth of the total rounded down (8·a <= T < 8·(a+1)) |
| BearCalc.DefaultLadderShape | bear-claim-canister/src/lib.rs:267-277 | exactly 8 slots; slot i has index i, amount T/8, delay 15,552,000·(i+1), Pending, no neuron |
| BearCalc.DefaultLadderDelaysIncrease | bear-claim-canister/src/lib.rs:272 | later slots have strictly longer dissolve delays |
| BearCalc.DefaultLadderSum | bear-claim-canister/src/lib.rs:268-273 | the slot amounts sum to T − T%8, which is <= T and short of T by less than 8 |
| BearCalc.SaturatingAdd | bear-claim-canister/src/lib.rs:205 | the sum is exact when it fits, otherwise u128::MAX; it is never below either operand |
| BearCalc.LastIndexOf | bear-claim-canister/src/lib.rs:211 | the index of the last row for a key; no later row has that key (-1 when none does) |
| BearCalc.IngestLastWriteWins | bear-claim-canister/src/lib.rs:209-218 | after the insert loop a key of the batch maps to its last row's value; any other key is exactly as before |
| BearCalc.Ingest | bear-claim-canister/src/lib.rs:209-218 | inserting the rows in order leaves the old keys plus the batch's owners as the key set: nothing is removed |
| BearCanister.Now | bear-claim-canister/src/lib.rs:163 | whole seconds of the host time: t·1e9 <= nanos < (t+1)·1e9 |
| BearCanister.InitialState | bear-claim-canister/src/lib.rs:171-175 | the caller is the only admin, the config is cfg, the pool is 0, the window is (claim_start, claim_end), and nothing is ingested, scored or claimed |
| BearCanister.Restored | bear-claim-canister/src/lib.rs:187 | the loaded state when restoring succeeded, `State::default()` otherwise |
| BearCanister.ClaimCanister.constructor | bear-claim-canister/src/lib.rs:151-152 | before `init` the canister is uninitialised and holds the default state |
| BearCanister.ClaimCanister.Init | bear-claim-canister/src/lib.rs:166-177 | a second call traps with no change; the first one leaves admins = {caller}, pool 0, window (claim_start, claim_end), config cfg, empty maps |
| BearCanister.ClaimCanister.PreUpgrade | bear-claim-canister/src/lib.rs:179-183 | saves the whole state; traps with `STATE not initialized` when there is none, and with `stable_save failed` when the save fails |
| BearCanister.ClaimCanister.PostUpgrade | bear-claim-canister/src/lib.rs:185-190 | installs the loaded state or the default one, and marks the canister initialised |
| BearCanister.ClaimCanister.Upgrade | bear-claim-canister/src/lib.rs:179-190 | saving and restoring gives back exactly the state before the upgrade |
| BearCanister.ClaimCanister.RequireAdmin | bear-claim-canister/src/lib.rs:158-161 | passes if and only if the canister is initialised and the caller is an admin; otherwise traps with the matching message |
| BearCanister.ClaimCanister.AdminSetParams | bear-claim-canister/src/lib.rs:193-198 | non-admin: trap, nothing changed; admin: config and claim window replaced, all else unchanged |
| BearCanister.ClaimCanister.AdminFundPoolFromTreasury | bear-claim-canister/src/lib.rs:200-206 | non-admin: trap, nothing changed; admin: pool = min(pool + amount, u128::MAX), never lower, all else unchanged |
| BearCanister.ClaimCanister.AdminIngestSnapshot | bear-claim-canister/src/lib.rs:208-212 | non-admin: trap, nothing changed; admin: snapshot = rows inserted in order, all else unchanged |
| BearCanister.ClaimCanister.AdminIngestContributions | bear-claim-canister/src/lib.rs:214-218 | non-admin: trap, nothing changed; admin: contribs = rows inserted in order, all else unchanged |
| BearCanister.ClaimCanister.AdminCloseClaims | bear-claim-canister/src/lib.rs:220-221 | non-admin: trap, nothing changed; admin: the window's end becomes now, its start and all else unchanged |
| BearCanister.ClaimCanister.AdminOpenClaims | bear-claim-canister/src/lib.rs:223-226 | non-admin: trap, nothing changed; admin: the window becomes (start, end), all else unchanged |
| BearCanister.ClaimCanister.AdminSetAcl | bear-claim-canister/src/lib.rs:228-232 | non-admin: trap, nothing changed; admin: the admin set becomes exactly the listed principals (possibly none), all else unchanged |
| BearCanister.ClaimCanister.ComputePoints | bear-claim-canister/src/lib.rs:249-265 | holder points are the digit count of the holding, the total is w_holder·holder + w_contrib·contrib, an unknown account gets (0,0,0); the state is only read |
| BearCanister.ClaimCanister.PreviewClaim | bear-claim-canister/src/lib.rs:280-302 | allocation = min(pool/100, per-principal cap), ladder = default ladder of it, holder/contributor points reported as 0, total points reported, within_cap true, no state change |
| BearCanister.ClaimCanister.HasClaimed | bear-claim-canister/src/lib.rs:323-326 | true if and only if a record exists for the principal with exactly 8 claimed slots |
| BearCanister.ClaimCanister.GetStatus | bear-claim-canister/src/lib.rs:328-332 | the pool balance, with no state change |
| BearCanister.ClaimCanister.FinalizeSlot | bear-claim-canister/src/lib.rs:311-315 | always the not-implemented error, with no state change |
| BearCanister.ClaimCanister.FinalizeAll | bear-claim-canister/src/lib.rs:317-321 | always the not-implemented error, with no state change |
| BearCanister.SecondInitTraps | bear-claim-canister/src/lib.rs:167-173 | on a fresh canister the first init succeeds and makes its caller the sole admin; the second traps |
| BearCanister.AclLockout | bear-claim-canister/src/lib.rs:228-232 | after two admins hand the ACL to a third principal, both original admins are refused and the new one passes |
| Airdrop.Enumerate | airdrop/lib.rs:45 | map iteration visits every participant exactly once, in some order |
| Airdrop.SumOverPick | airdrop/lib.rs:45-49 | the total of contributions can be split off at any participant |
| Airdrop.SumOfEnumeration | airdrop/lib.rs:45-49 | paying participants in any iteration order adds up to the same total |
| Airdrop.AfterPayouts | airdrop/lib.rs:45-55 | the treasury left by the payout loop never exceeds the starting treasury |
| Airdrop.AfterPayoutsTotal | airdrop/lib.rs:45-55 | the treasury left is t − sum when the treasury covers the sum, and 0 otherwise |
| Airdrop.AirdropOutcome | airdrop/lib.rs:45-55 | for a whole map, the treasury left is the same for every iteration order |
| Airdrop.AirdropCanister.constructor | airdrop/lib.rs:8-12 | the canister starts with no participants and a zero treasury |
| Airdrop.AirdropCanister.AddContribution | airdrop/lib.rs:14-20 | map[p] becomes the old entry (or 0) plus icp, every other entry and the treasury unchanged; no admin check |
| Airdrop.AirdropCanister.SetTreasury | airdrop/lib.rs:22-31 | a caller other than ADMIN traps with nothing changed; ADMIN sets the treasury to exactly the amount |
| Airdrop.AirdropCanister.MonthlyAirdrop | airdrop/lib.rs:33-58 | non-admin: trap, treasury unchanged. Admin: participants unchanged and the treasury never rises. Each payout is the participant's contribution, 1:1. Covered payouts are subtracted in iteration order. At the first uncovered payout the treasury becomes 0 and the loop stops. The final treasury is t − total or 0, whatever the order |
| Airdrop.AirdropCanister.GetParticipants | airdrop/lib.rs:60-63 | every participant exactly once, and nothing else |
| Airdrop.AirdropCanister.GetTreasury | airdrop/lib.rs:65-68 | the treasury |
| Airdrop.AirdropCanister.GetContribution | airdrop/lib.rs:70-75 | the participant's accumulated amount, 0 for an unknown principal |

## Left out

- `prepare_claim` always traps with a placeholder message. It is not part of this model.
- The `dist_*` functions (`dist_register_shares_from_contribs`, `dist_execute_payout_icp`, `dist_execute_payout_bear`) are admin-gated stubs with no effect. They are not part of this model.
- `export_candid`, the Candid/serde derives, and the bytes that `stable_save` and `stable_restore` produce are serialization library calls. `PreUpgrade` returns the state value and takes the outcome of `stable_save` as a `saveOk` flag. `PostUpgrade` receives `Some(state)` or `None` for a failed restore.
- BearCanister.ClaimCanister.PreUpgrade: the trap message is `stable_save failed`; the error text that Rust's `expect` appends after it is not modelled.
- The `unsafe static mut` singleton, the atomic `INIT_DONE` and the thread-local `RefCell`s are replaced by class fields. Calls run one at a time, as the host runs them.
- The vesting transitions (Pending→Ready→Staked→Claimed), the ledger and governance calls, and proportional normalization of allocations are not in the source. They are not modelled. The fields `total_points`, `user_points` and `claimed_count` are kept. No call computes them: only `init` (which resets them to their defaults) and `post_upgrade` (which restores them) change them.
- `preview_claim` calls `now()` and reads the claim window's end, but uses neither. The model drops both reads.
- `scripts/submitProposal.js` and `project/scripts/airdrop.js` are network clients. They are not part of this model.
- BearCanister.ClaimCanister.ComputePoints: does not model the truncating `as u64` cast of the USD amount, or u64 wrap-around in `2 * excess` and in the weighted sum. A precondition (`PointsFitFor`) excludes those inputs.
- BearCalc.Points: its precondition `BearCalc.PointsFit` excludes the same inputs (the truncating cast and the u64 wrap-arounds). `PointsMonotone` and `PointsScenario` are stated under it too.
- BearCanister.ClaimCanister.PreviewClaim: inherits the same precondition from `compute_points`.
- Airdrop.AirdropCanister.AddContribution: does not model u64 overflow of `+= icp`. A precondition excludes it.
- Airdrop.AirdropCanister.MonthlyAirdrop: the ledger transfer the loop would make (a TODO in the source) is not modelled. Only the treasury bookkeeping is.
