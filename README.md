# Magink: claim timer, badge counter and Wizard mint gate

Magink is an ink! smart contract. An account calls `start(era)` to open a
claim era of `era` blocks. It may `claim` one badge each time a full era has
passed, and each claim restarts the era. Once it holds 9 badges it calls
`mint_wizard`, which asks a separate PSP34 collection (the Wizard contract) to
mint it one token. The token id is the collection's current `total_supply`.

The model has five modules:

- `Primitives` (primitives.dfy): `u8` and `u32` as bounded integers, Rust's
  `as u8` cast, 32-byte account ids, `Option`.
- `PSP34` (psp34.dfy): the Wizard collection, reduced to what Magink sees of
  it. It keeps an owner, a token-id → owner map, per-account token counts and
  the total supply. `mint` is only for the owner and refuses an id that
  already exists. `Valid()` ties the counts and the supply to the token map.
- `Magink` (magink.dfy): `Profile`, `Error`, the remaining-blocks function,
  `claim` as a pure transition, and the class `Magink`. The class holds the
  `user` mapping and a reference to the Wizard contract. `start`, `claim` and
  `mint_wizard` are methods. The read-only messages are functions.
- `ClaimRuns` (claim_runs.dfy): lemmas over a whole run of claims sent by one
  account.
- `Scenarios` (scenarios.dfy): the contract's unit tests and its end-to-end
  test, written as methods. Their postconditions are the tests' assertions.

The host environment becomes parameters. `caller` is `env().caller()` and
`now` is `env().block_number()`. A panic is the `Panic` outcome: the host
rolls back every write of that message. The only panic the model keeps is the
`u8` overflow of `badges_claimed += 1` at 255.

Facts about the code that the model keeps:

- `mint_wizard` checks the badge quota (lib.rs:88) before it checks for an
  existing token (lib.rs:92). The quota test is `badges_claimed < 9`.
- Magink keeps no "already minted" flag and no id counter of its own. It asks
  the collection for `balance_of` and `total_supply`. A successful mint
  writes nothing in Magink's own storage.
- The reply to the cross-contract `mint` is decoded as `()` (lib.rs:108). The
  collection's own `Result` is never read, so a refused mint still ends in
  `Ok(())`. `MintWizard` models the call as written; see "## Findings".
- Whether the collection's dispatcher accepted the `mint` message is the
  parameter `dispatched`. When it did not, the reply is a `LangError` and
  `mint_wizard` returns `MintError` (lib.rs:112-114).

## Model

| member | source | states |
|---|---|---|
| `Primitives.AsU8` | contract/magink/lib.rs:128 | the `as u8` cast keeps the value exactly when the value is below 256 |
| `PSP34.Wizard.constructor` | contract/wizard/lib.rs:42-50 | a new collection has no tokens, supply 0, and its deployer as owner |
| `PSP34.Wizard.BalanceOf` | contract/magink/lib.rs:192-205 | `balance_of(a)` is the number of token ids the collection assigns to `a` |
| `PSP34.Wizard.TransferOwnership` | contract/magink/lib.rs:318-324 | only the current owner can hand the collection to a new owner; the token ledger is untouched |
| `PSP34.Wizard.Mint` | contract/wizard/lib.rs:30-34 | a sender that is not the owner is refused; a taken id is refused; a refusal changes nothing; a success assigns the id to `to`, adds one to its count and to the supply, and keeps the ledger invariant |
| `Magink.Lookup` | contract/magink/lib.rs:147 | `Mapping::get` returns the stored profile exactly when the account has one |
| `Magink.Remaining` | contract/magink/lib.rs:124-129 | no profile gives 0; otherwise 0 exactly when `now - start_block >= claim_era`, else `claim_era - (now - start_block)`, never more than `claim_era`; the `u32` subtraction cannot underflow and the `u8` cast is exact |
| `Magink.RemainingTicksDown` | contract/magink/lib.rs:240-243 | one block later the wait is one block shorter, until it reaches 0 and stays there |
| `Magink.ClaimStep` | contract/magink/lib.rs:72-81 | too early gives `TooEarlyToClaim`; no profile passes the timer gate and gives `UserNotFound`; at 255 badges it panics; nothing changes on any of these; success adds exactly one badge, restarts the era at `now`, keeps `claim_era`, and leaves the wait at `claim_era` again |
| `Magink.Magink.constructor` | contract/magink/lib.rs:52-57 | a new contract has an empty user mapping and refers to the given Wizard contract |
| `Magink.Magink.Start` | contract/magink/lib.rs:61-68 | the caller's profile becomes `(era, now, 0)` whatever it was before; no other entry changes; the wait is then `era` and the badge count 0 |
| `Magink.Magink.Claim` | contract/magink/lib.rs:71-82 | the outcome and the new mapping are those of `ClaimStep` on the old mapping; the `ensure!` early return (lib.rs:457-463) is the timer gate |
| `Magink.Magink.CheckMintable` | contract/magink/lib.rs:86-94 | the checks before the call, in the code's order: `UserNotFound` without a profile, then `NotEnoughBadges` below 9 badges, then `NftAlreadyClaimed` when the caller holds a token; the call goes ahead exactly when none applies |
| `Magink.Magink.MintWizard` | contract/magink/lib.rs:85-117 | the errors of `CheckMintable` in the same order; once they pass, `Ok` when the `mint` message was dispatched and `MintError` when it was not, whatever the collection decided; the user mapping is never written; the collection changes only when it accepts id `total_supply`, and then the caller owns exactly that one token, the owner is kept and the supply rises by one; a gap-free id range stays gap-free |
| `Magink.Magink.MintWizardChecked` | contract/magink/lib.rs:98-114 | as `MintWizard`, but a refused mint is `MintError`: `Ok` holds exactly when the caller received the token with id `total_supply`, and every other outcome leaves the collection unchanged |
| `Magink.Magink.GetRemaining` | contract/magink/lib.rs:121-130 | `get_remaining` is `get_remaining_for` asked for the caller |
| `Magink.Magink.GetRemainingFor` | contract/magink/lib.rs:134-142 | 0 for an account without a profile; otherwise at most `claim_era`, 0 exactly when the era has run out, and `claim_era - (now - start_block)` while it has not |
| `Magink.Magink.GetAccountProfile` | contract/magink/lib.rs:146-148 | the stored profile exactly when the account has one |
| `Magink.Magink.GetProfile` | contract/magink/lib.rs:152-155 | `get_profile` is `get_account_profile` of the caller |
| `Magink.Magink.GetBadges` | contract/magink/lib.rs:159-162 | `get_badges` is `get_badges_for` of the caller |
| `Magink.Magink.GetBadgesFor` | contract/magink/lib.rs:166-169 | 0 for an account without a profile, else its stored badge count |
| `Magink.Magink.GetNextId` | contract/magink/lib.rs:173-187 | the next id is the number of tokens issued so far; on a gap-free ledger that id is not yet taken |
| `Magink.Magink.GetIsAlreadyMinted` | contract/magink/lib.rs:191-206 | true exactly when the account owns at least one token of the collection |
| `ClaimRuns.ClaimAll` | contract/magink/lib.rs:72-81 | a run of claims by one account at non-decreasing blocks gives one outcome per claim |
| `ClaimRuns.BadgesCountSuccesses` | contract/magink/lib.rs:76-79 | over any run of claims, only the claimant's profile changes, its era length stays, and its badge count rises by exactly the number of `Ok` outcomes, so it never decreases |
| `ClaimRuns.PatientClaimsSucceed` | contract/magink/lib.rs:73-79 | if the account waits at least a full era before each claim and stays within 255 badges, every claim succeeds; it ends with one badge per claim and its era restarted at the last claim |
| `ClaimRuns.ClaimsWithoutProfile` | contract/magink/lib.rs:73-76 | an account that never sent `start` gets `UserNotFound` from every claim, and the mapping never changes |
| `ClaimRuns.SpacedIsChronological` | contract/magink/lib.rs:125 | claims spaced by an era are in block order, so every timer subtraction along the run is defined |
| `Scenarios.StartWorks` | contract/magink/lib.rs:237-244 | before `start` the wait reads 0; after `start(10)` it is 10, and one block later 9 |
| `Scenarios.ClaimWorks` | contract/magink/lib.rs:247-271 | a claim one block early is `TooEarlyToClaim`; on time it succeeds with 1 badge and a wait of 10; the next claims are too early, with the wait at 9 one block later |
| `Scenarios.MintingWorks` | contract/magink/lib.rs:301-436 | with era 0, nine claims give badges 0..8 in turn while every mint is `NotEnoughBadges`; the first mint then issues id 0 and the supply becomes 1; a second mint is `NftAlreadyClaimed` and the supply stays 1 |
| `Scenarios.CollectNineBadges` | contract/magink/lib.rs:346-378 | each of the nine rounds reads badges 0..8 in turn, sees the mint refused with `NotEnoughBadges`, and claims successfully; Bob ends with 9 badges and no token is issued |
| `Scenarios.ClaimNineTimes` | contract/magink/lib.rs:71-82 | nine claims on consecutive blocks in an era of length 0 take a fresh profile to 9 badges |
| `Scenarios.ForeignTokenBlocksMint` | contract/magink/lib.rs:96-114 | the deployer mints id 1 before the ownership hand-over, so the requested id (`total_supply` = 1) is taken; `MintWizard` still answers `Ok` while the account holds no token, and `MintWizardChecked` answers `MintError` |

## Findings

| source | as written | input that shows it | evidently intended | confidence | as-written member | corrected member |
|---|---|---|---|---|---|---|
| contract/magink/lib.rs:108-114 | the `mint` reply is decoded as `()`, so the collection's refusal (`TokenExists`, or a sender that is not the owner) is not seen and `mint_wizard` returns `Ok(())` with no token issued | the deployer mints id 1, then hands ownership to Magink; an account with 9 badges and no token calls `mint_wizard`, which requests id 1 (`Scenarios.ForeignTokenBlocksMint`) | a refused mint returns `MintError`, so `Ok` means a token was issued | not executed | `Magink.Magink.MintWizard` | `Magink.Magink.MintWizardChecked` |

## Left out

- Cross-contract call mechanics: `build_call`, selectors, gas limits and SCALE encoding (lib.rs:98-110, 174-186, 192-203). The Wizard contract is an object that Magink calls directly.
- Magink.Magink.MintWizard: models ink's reading of the reply, which decodes the leading `Ok` and ignores the bytes after it. If the reply were decoded strictly, the same refusal would panic at lib.rs:110 instead of returning `Ok`. In neither case is it `MintError`.
- The `.expect(...)` panics when a cross-contract call itself fails. They are host aborts with full rollback, not returned errors.
- `get_token_image` (lib.rs:210-229): an external metadata lookup with no local logic.
- The rest of the Wizard contract: the Transfer event, the name and symbol metadata, approvals, transfers and burning. The PSP34 and Ownable code is library code that is not part of this model. Only `mint`, `balance_of`, `total_supply` and `transfer_ownership` are kept.
- PSP34 `Id` variants other than `U128`.
- The `u128` bound on the supply and on ids, and the `u32` width of token counts. They are unbounded here because a collection cannot come near them.
- The `u32` underflow of `current_block - start_block`. Every timer read requires that the era did not start after the current block. The host guarantees this, because block numbers never go backwards.
- The e2e test's dry runs (`call_dry_run`) are ordinary calls here. The refused mints they make change no state, so the outcome is the same.
- The deployment steps of the e2e test are kept only as far as minting needs them: deploy the Wizard, then hand its ownership to Magink.
- The React front end (FormContainer.tsx, useSubmitHandler.ts): display and wallet plumbing with no state of its own.
