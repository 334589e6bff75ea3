/**
 * The Magink contract (`contract/magink/lib.rs`): a per-account claim timer
 * and badge counter, and the gate that mints one Wizard token for an account
 * that has collected enough badges.
 *
 * The host environment enters as parameters: `caller` is
 * `self.env().caller()` and `now` is `self.env().block_number()`.
 */
module Magink {
  import opened Primitives
  import PSP34

  /** Badges needed before `mint_wizard` asks for a token. */
  const BADGE_QUOTA: uint8 := 9

  datatype Error =
    | TooEarlyToClaim
    | UserNotFound
    | NotEnoughBadges
    | NftAlreadyClaimed
    | MintError

  /**
   * How a message ends: `Ok(())`, `Err(e)`, or a panic (an arithmetic
   * overflow), after which the host discards every write of the message.
   */
  datatype Outcome = Ok | Err(error: Error) | Panic

  /** One account's claim state. */
  datatype Profile = Profile(claimEra: uint8, startBlock: uint32, badgesClaimed: uint8)

  /** `Mapping::get`. */
  function Lookup(user: map<AccountId, Profile>, a: AccountId): (p: Option<Profile>)
    ensures p.Some? <==> a in user
    ensures p.Some? ==> p.value == user[a]
  {
    if a in user then Some(user[a]) else None
  }

  /**
   * The host's block numbers never go backwards, so an era never starts
   * after the current block: this is what makes `current_block -
   * start_block` a `u32` subtraction that cannot underflow.
   */
  predicate StartedBy(user: map<AccountId, Profile>, a: AccountId, now: uint32)
  {
    a in user ==> user[a].startBlock <= now
  }

  /**
   * Blocks left in the current era (the closure passed to `map_or` in
   * `get_remaining`): no profile reads as 0; otherwise 0 once `claimEra`
   * blocks have passed since `startBlock`, and the blocks still to wait
   * before that.  The `as u8` narrowing of the elapsed block count is exact
   * on the branch that uses it.
   */
  function Remaining(profile: Option<Profile>, now: uint32): (r: uint8)
    requires profile.Some? ==> profile.value.startBlock <= now
    ensures profile.None? ==> r == 0
    ensures profile.Some? ==> r <= profile.value.claimEra
    ensures profile.Some? ==>
      (r == 0 <==> now - profile.value.startBlock >= profile.value.claimEra)
    ensures profile.Some? && r != 0 ==>
      r == profile.value.claimEra - (now - profile.value.startBlock)
  {
    match profile
    case None => 0
    case Some(p) =>
      var elapsed: uint32 := now - p.startBlock;
      if elapsed >= p.claimEra then 0
      else p.claimEra - AsU8(elapsed)
  }

  /** Each new block takes one block off the wait, until it reaches 0 and stays there. */
  lemma RemainingTicksDown(profile: Option<Profile>, now: uint32)
    requires profile.Some? ==> profile.value.startBlock <= now
    requires now < 0xFFFF_FFFF
    ensures Remaining(profile, now + 1) == if Remaining(profile, now) == 0 then 0 else Remaining(profile, now) - 1
  {
  }

  /**
   * `claim` as a transition of the user mapping: the outcome and the mapping
   * afterwards.  The timer gate comes first, so an account without a profile
   * (remaining 0) reaches the `UserNotFound` check.
   */
  function ClaimStep(user: map<AccountId, Profile>, caller: AccountId, now: uint32)
    : (res: (Outcome, map<AccountId, Profile>))
    requires StartedBy(user, caller, now)
    ensures res.0 != Ok ==> res.1 == user
    ensures caller !in user ==> res.0 == Err(UserNotFound)
    ensures caller in user ==>
      (res.0 == Err(TooEarlyToClaim) <==> now - user[caller].startBlock < user[caller].claimEra)
    ensures res.0 == Panic <==>
      caller in user && now - user[caller].startBlock >= user[caller].claimEra
      && user[caller].badgesClaimed == UINT8_MAX
    ensures res.0 == Ok <==>
      caller in user && now - user[caller].startBlock >= user[caller].claimEra
      && user[caller].badgesClaimed < UINT8_MAX
    ensures res.0 == Ok ==>
      res.1 == user[caller := Profile(user[caller].claimEra, now, user[caller].badgesClaimed + 1)]
    ensures res.0 == Ok ==> Remaining(Lookup(res.1, caller), now) == user[caller].claimEra
  {
    if Remaining(Lookup(user, caller), now) != 0 then (Err(TooEarlyToClaim), user)
    else match Lookup(user, caller)
      case None => (Err(UserNotFound), user)
      case Some(p) =>
        if p.badgesClaimed == UINT8_MAX then (Panic, user)
        else (Ok, user[caller := p.(badgesClaimed := p.badgesClaimed + 1, startBlock := now)])
  }

  class Magink {
    /** The `user` storage mapping. */
    var user: map<AccountId, Profile>
    /** The issuance contract at `wizard_account`. */
    const wizard: PSP34.Wizard
    /** The account the host gave this contract; it is the sender of the cross-contract `mint`. */
    const address: AccountId

    constructor (wizardContract: PSP34.Wizard, address: AccountId)
      ensures user == map[] && wizard == wizardContract && this.address == address
    {
      user := map[];
      wizard := wizardContract;
      this.address := address;
    }

    /**
     * `start(era)`: the caller's profile becomes a fresh era of `era` blocks
     * starting now with no badges, whatever it was before; no other account
     * changes.
     */
    method Start(caller: AccountId, now: uint32, era: uint8)
      modifies this
      ensures user == old(user)[caller := Profile(era, now, 0)]
      ensures GetRemaining(caller, now) == era && GetBadges(caller) == 0
    {
      var profile := Profile(claimEra := era, startBlock := now, badgesClaimed := 0);
      user := user[caller := profile];
    }

    /** `claim()`: one badge per elapsed era, restarting the era. */
    method Claim(caller: AccountId, now: uint32) returns (r: Outcome)
      requires StartedBy(user, caller, now)
      modifies this
      ensures (r, user) == ClaimStep(old(user), caller, now)
    {
      // ensure!(remaining == 0, TooEarlyToClaim)
      if GetRemaining(caller, now) != 0 {
        return Err(TooEarlyToClaim);
      }
      var found := GetProfile(caller);
      if found.None? {
        return Err(UserNotFound);
      }
      var profile := found.value;
      if profile.badgesClaimed == UINT8_MAX {
        // `badges_claimed += 1` overflows a u8: the message traps
        return Panic;
      }
      profile := profile.(badgesClaimed := profile.badgesClaimed + 1);
      profile := profile.(startBlock := now);
      user := user[caller := profile];
      r := Ok;
    }

    /**
     * The collection would accept a mint of id `total_supply` sent by this
     * contract: Magink is its owner and that id is not taken yet.
     */
    ghost predicate MintAccepted()
      reads this, wizard
    {
      wizard.owner == address && wizard.totalSupply !in wizard.tokenOwner
    }

    /**
     * The checks `mint_wizard` makes before calling the collection, in the
     * code's order: a profile, then at least `BADGE_QUOTA` badges, then no
     * token held yet.  `None` means the call goes ahead.
     */
    method CheckMintable(caller: AccountId) returns (blocked: Option<Error>)
      requires wizard.Valid()
      ensures caller !in user ==> blocked == Some(UserNotFound)
      ensures caller in user && user[caller].badgesClaimed < BADGE_QUOTA ==> blocked == Some(NotEnoughBadges)
      ensures caller in user && user[caller].badgesClaimed >= BADGE_QUOTA && wizard.TokensOf(caller) != {} ==>
        blocked == Some(NftAlreadyClaimed)
      ensures blocked == None <==>
        caller in user && user[caller].badgesClaimed >= BADGE_QUOTA && wizard.TokensOf(caller) == {}
    {
      var found := GetProfile(caller);
      if found.None? {
        return Some(UserNotFound);
      }
      if found.value.badgesClaimed < BADGE_QUOTA {
        return Some(NotEnoughBadges);
      }
      if GetIsAlreadyMinted(caller) {
        return Some(NftAlreadyClaimed);
      }
      blocked := None;
    }

    /**
     * `mint_wizard()` as written.  After the checks it sends
     * `PSP34Mintable::mint(caller, total_supply)` and decodes the reply as
     * `MessageResult<()>`: the outer layer only says whether the
     * collection's dispatcher accepted the message (`dispatched`), and the
     * mint's own `Result` is never read.  So a refused mint still returns
     * `Ok`, with no token issued; `MintError` comes only from a dispatch
     * failure.  The user mapping is never written.
     */
    method MintWizard(caller: AccountId, dispatched: bool) returns (r: Outcome)
      requires wizard.Valid()
      modifies wizard
      ensures wizard.Valid()
      ensures user == old(user)
      ensures caller !in user ==> r == Err(UserNotFound)
      ensures caller in user && user[caller].badgesClaimed < BADGE_QUOTA ==> r == Err(NotEnoughBadges)
      ensures caller in user && user[caller].badgesClaimed >= BADGE_QUOTA && old(wizard.TokensOf(caller)) != {} ==>
        r == Err(NftAlreadyClaimed)
      ensures caller in user && user[caller].badgesClaimed >= BADGE_QUOTA && old(wizard.TokensOf(caller)) == {} ==>
        r == if dispatched then Ok else Err(MintError)
      ensures r == Ok && old(MintAccepted()) ==>
        && wizard.owner == old(wizard.owner)
        && wizard.tokenOwner == old(wizard.tokenOwner)[old(wizard.totalSupply) := caller]
        && wizard.totalSupply == old(wizard.totalSupply) + 1
        && wizard.TokensOf(caller) == {old(wizard.totalSupply)}
      ensures !(r == Ok && old(MintAccepted())) ==> unchanged(wizard)
      ensures old(wizard.Contiguous()) ==> wizard.Contiguous()
    {
      var blocked := CheckMintable(caller);
      if blocked.Some? {
        return Err(blocked.value);
      }
      var nextId := GetNextId();
      if !dispatched {
        return Err(MintError);
      }
      var refused := wizard.Mint(address, caller, nextId);
      // the reply is read as `()`, so `refused` is not looked at
      r := Ok;
    }

    /**
     * `mint_wizard()` with the reply decoded as
     * `MessageResult<Result<(), PSP34Error>>`, so that a refused mint is
     * reported.  `Ok` now means exactly that the caller received the token
     * with id `total_supply`; every other outcome leaves the collection
     * unchanged.
     */
    method MintWizardChecked(caller: AccountId, dispatched: bool) returns (r: Outcome)
      requires wizard.Valid()
      modifies wizard
      ensures wizard.Valid()
      ensures user == old(user)
      ensures caller !in user ==> r == Err(UserNotFound)
      ensures caller in user && user[caller].badgesClaimed < BADGE_QUOTA ==> r == Err(NotEnoughBadges)
      ensures caller in user && user[caller].badgesClaimed >= BADGE_QUOTA && old(wizard.TokensOf(caller)) != {} ==>
        r == Err(NftAlreadyClaimed)
      ensures caller in user && user[caller].badgesClaimed >= BADGE_QUOTA && old(wizard.TokensOf(caller)) == {} ==>
        r == if dispatched && old(MintAccepted()) then Ok else Err(MintError)
      ensures r == Ok ==>
        && wizard.owner == old(wizard.owner)
        && wizard.tokenOwner == old(wizard.tokenOwner)[old(wizard.totalSupply) := caller]
        && wizard.totalSupply == old(wizard.totalSupply) + 1
        && wizard.TokensOf(caller) == {old(wizard.totalSupply)}
      ensures r != Ok ==> unchanged(wizard)
      ensures old(wizard.Contiguous()) ==> wizard.Contiguous()
    {
      var blocked := CheckMintable(caller);
      if blocked.Some? {
        return Err(blocked.value);
      }
      var nextId := GetNextId();
      if !dispatched {
        return Err(MintError);
      }
      var minted := wizard.Mint(address, caller, nextId);
      if minted.Rejected? {
        return Err(MintError);
      }
      r := Ok;
    }

    /** `get_remaining()`: the remaining-blocks query asked for the caller. */
    function GetRemaining(caller: AccountId, now: uint32): (r: uint8)
      reads this
      requires StartedBy(user, caller, now)
      ensures r == GetRemainingFor(caller, now)
    {
      Remaining(GetProfile(caller), now)
    }

    /** `get_remaining_for(account)`: 0 without a profile, else the blocks left in its era. */
    function GetRemainingFor(account: AccountId, now: uint32): (r: uint8)
      reads this
      requires StartedBy(user, account, now)
      ensures account !in user ==> r == 0
      ensures account in user ==>
        && r <= user[account].claimEra
        && (r == 0 <==> now - user[account].startBlock >= user[account].claimEra)
        && (r != 0 ==> r == user[account].claimEra - (now - user[account].startBlock))
    {
      Remaining(GetAccountProfile(account), now)
    }

    /** `get_account_profile(account)`. */
    function GetAccountProfile(account: AccountId): (p: Option<Profile>)
      reads this
      ensures p.Some? <==> account in user
      ensures p.Some? ==> p.value == user[account]
    {
      Lookup(user, account)
    }

    /** `get_profile()`: the caller's profile. */
    function GetProfile(caller: AccountId): (p: Option<Profile>)
      reads this
      ensures p == GetAccountProfile(caller)
    {
      Lookup(user, caller)
    }

    /** `get_badges()`: the caller's badge count. */
    function GetBadges(caller: AccountId): (n: uint8)
      reads this
      ensures n == GetBadgesFor(caller)
    {
      match GetProfile(caller)
      case None => 0
      case Some(p) => p.badgesClaimed
    }

    /** `get_badges_for(account)`: 0 without a profile, else its badge count. */
    function GetBadgesFor(account: AccountId): (n: uint8)
      reads this
      ensures account !in user ==> n == 0
      ensures account in user ==> n == user[account].badgesClaimed
    {
      match GetAccountProfile(account)
      case None => 0
      case Some(p) => p.badgesClaimed
    }

    /** `get_next_id()`: the issuance contract's `total_supply`, i.e. the number of tokens issued so far. */
    function GetNextId(): (id: PSP34.Id)
      reads this, wizard
      requires wizard.Valid()
      ensures id == |wizard.tokenOwner|
      ensures wizard.Contiguous() ==> id !in wizard.tokenOwner
    {
      wizard.totalSupply
    }

    /** `get_is_already_minted(account)`: whether `account` holds any token of the collection. */
    function GetIsAlreadyMinted(account: AccountId): (minted: bool)
      reads this, wizard
      requires wizard.Valid()
      ensures minted <==> wizard.TokensOf(account) != {}
    {
      wizard.BalanceOf(account) >= 1
    }
  }
}
