/**
 * The contract's unit tests and its end-to-end minting test, replayed
 * against the model: each scenario deploys fresh contracts, sends the same
 * messages and returns what the test observes; the postconditions are the
 * test's assertions.
 */
module Scenarios {
  import opened Primitives
  import opened Magink
  import PSP34

  const ALICE: AccountId := seq(32, _ => 1)
  const BOB: AccountId := seq(32, _ => 2)
  /** The account the host assigns to the deployed Magink contract. */
  const MAGINK: AccountId := seq(32, _ => 0x42)

  /** `start_works`: after `start(10)` ten blocks remain, one block later nine. */
  method StartWorks() returns (before: uint8, atStart: uint8, oneBlockLater: uint8)
    ensures before == 0 && atStart == 10 && oneBlockLater == 9
  {
    var wizard := new PSP34.Wizard(ALICE);
    var magink := new Magink(wizard, MAGINK);
    var block: uint32 := 0;
    before := magink.GetRemaining(ALICE, block);
    magink.Start(ALICE, block, 10);
    atStart := magink.GetRemaining(ALICE, block);
    block := block + 1;
    oneBlockLater := magink.GetRemaining(ALICE, block);
  }

  /**
   * `claim_works`: a claim one block before the era ends is too early; at
   * the end of the era it succeeds, gives one badge and restarts a ten-block
   * era, after which claims are too early again.
   */
  method ClaimWorks() returns (remainingBefore: uint8, early: Outcome, onTime: Outcome,
                               badges: uint8, badgesForAlice: uint8, remainingAfter: uint8,
                               again: Outcome, remainingLater: uint8, stillEarly: Outcome)
    ensures remainingBefore == 1 && early == Err(TooEarlyToClaim)
    ensures onTime == Ok && badges == 1 && badgesForAlice == 1 && remainingAfter == 10
    ensures again == Err(TooEarlyToClaim) && remainingLater == 9 && stillEarly == Err(TooEarlyToClaim)
  {
    var wizard := new PSP34.Wizard(ALICE);
    var magink := new Magink(wizard, MAGINK);
    var block: uint32 := 0;
    magink.Start(ALICE, block, 10);
    block := block + 9;
    remainingBefore := magink.GetRemaining(ALICE, block);
    early := magink.Claim(ALICE, block);
    block := block + 1;
    onTime := magink.Claim(ALICE, block);
    badges := magink.GetBadges(ALICE);
    badgesForAlice := magink.GetBadgesFor(ALICE);
    remainingAfter := magink.GetRemaining(ALICE, block);
    again := magink.Claim(ALICE, block);
    block := block + 1;
    remainingLater := magink.GetRemaining(ALICE, block);
    stillEarly := magink.Claim(ALICE, block);
  }

  /**
   * The claiming loop of `e2e_minting_works`, from the block after `start(0)`:
   * each round reads Bob's badges, tries a mint that is refused for lack of
   * badges, claims, and moves to the next block.
   */
  method CollectNineBadges(magink: Magink, wizard: PSP34.Wizard)
    returns (badgesSeen: seq<uint8>, earlyMints: seq<Outcome>, claims: seq<Outcome>)
    requires magink.wizard == wizard && wizard.Valid()
    requires wizard.owner == MAGINK && wizard.tokenOwner == map[] && wizard.totalSupply == 0
    requires magink.user == map[BOB := Profile(0, 1, 0)]
    modifies magink, wizard
    ensures magink.user == map[BOB := Profile(0, 9, 9)]
    ensures wizard.Valid() && wizard.owner == MAGINK && wizard.tokenOwner == map[] && wizard.totalSupply == 0
    ensures |badgesSeen| == 9 && forall i :: 0 <= i < 9 ==> badgesSeen[i] == i
    ensures |earlyMints| == 9 && forall i :: 0 <= i < 9 ==> earlyMints[i] == Err(NotEnoughBadges)
    ensures |claims| == 9 && forall i :: 0 <= i < 9 ==> claims[i] == Ok
  {
    var block: uint32 := 1;
    badgesSeen, earlyMints, claims := [], [], [];
    var i := 0;
    while i < 9
      invariant 0 <= i <= 9 && block == i + 1
      invariant magink.user == map[BOB := Profile(0, if i == 0 then 1 else i, i)]
      invariant wizard.Valid() && wizard.owner == MAGINK && wizard.tokenOwner == map[] && wizard.totalSupply == 0
      invariant |badgesSeen| == |earlyMints| == |claims| == i
      invariant forall k :: 0 <= k < i ==> badgesSeen[k] == k
      invariant forall k :: 0 <= k < i ==> earlyMints[k] == Err(NotEnoughBadges) && claims[k] == Ok
    {
      var seen := magink.GetBadges(BOB);
      badgesSeen := badgesSeen + [seen];
      var tooSoon := magink.MintWizard(BOB, true);
      earlyMints := earlyMints + [tooSoon];
      var claimed := magink.Claim(BOB, block);
      claims := claims + [claimed];
      block := block + 1;
      i := i + 1;
    }
  }

  /**
   * `e2e_minting_works`: Bob starts an era of length 0 and claims nine
   * times, each mint attempt before that failing with `NotEnoughBadges`;
   * the first mint then issues token 0, and a second one is refused with
   * `NftAlreadyClaimed` without issuing anything.
   */
  method MintingWorks() returns (badgesSeen: seq<uint8>, earlyMints: seq<Outcome>, claims: seq<Outcome>,
                                 badges: uint8, idBefore: nat, first: Outcome, idAfter: nat,
                                 second: Outcome, idFinal: nat)
    ensures |badgesSeen| == 9 && forall i :: 0 <= i < 9 ==> badgesSeen[i] == i
    ensures |earlyMints| == 9 && forall i :: 0 <= i < 9 ==> earlyMints[i] == Err(NotEnoughBadges)
    ensures |claims| == 9 && forall i :: 0 <= i < 9 ==> claims[i] == Ok
    ensures badges == 9 && idBefore == 0
    ensures first == Ok && idAfter == 1
    ensures second == Err(NftAlreadyClaimed) && idFinal == 1
  {
    assert ALICE[0] != BOB[0] && MAGINK[0] != ALICE[0];
    var wizard := new PSP34.Wizard(ALICE);
    var magink := new Magink(wizard, MAGINK);
    var transferred := wizard.TransferOwnership(ALICE, MAGINK);
    magink.Start(BOB, 1, 0);
    badgesSeen, earlyMints, claims := CollectNineBadges(magink, wizard);
    badges := magink.GetBadges(BOB);
    idBefore := magink.GetNextId();
    assert wizard.TokensOf(BOB) == {} && magink.MintAccepted();
    first := magink.MintWizard(BOB, true);
    assert wizard.TokensOf(BOB) == {0} && wizard.totalSupply == 1;
    idAfter := magink.GetNextId();
    second := magink.MintWizard(BOB, true);
    idFinal := magink.GetNextId();
  }

  /** Nine claims by Bob on consecutive blocks of an era of length 0. */
  method ClaimNineTimes(magink: Magink)
    requires magink.user == map[BOB := Profile(0, 1, 0)]
    modifies magink
    ensures magink.user == map[BOB := Profile(0, 9, 9)]
  {
    var block: uint32 := 1;
    var i := 0;
    while i < 9
      invariant 0 <= i <= 9 && block == i + 1
      invariant magink.user == map[BOB := Profile(0, if i == 0 then 1 else i, i)]
    {
      var claimed := magink.Claim(BOB, block);
      block := block + 1;
      i := i + 1;
    }
  }

  /**
   * The token id is read from `total_supply` rather than reserved: once the
   * collection's deployer has minted id 1 before handing ownership to
   * Magink, the supply is 1, so an eligible account is offered the taken id
   * 1 and the collection refuses the mint.  As written, `mint_wizard` still
   * answers `Ok` and the account holds no token; with the reply decoded in
   * full, the same call answers `MintError`.
   */
  method ForeignTokenBlocksMint() returns (asWritten: Outcome, holdsToken: bool, checked: Outcome, nextId: nat)
    ensures asWritten == Ok && !holdsToken
    ensures checked == Err(MintError) && nextId == 1
  {
    assert ALICE[0] != BOB[0] && MAGINK[0] != ALICE[0];
    var wizard := new PSP34.Wizard(ALICE);
    var magink := new Magink(wizard, MAGINK);
    var direct := wizard.Mint(ALICE, ALICE, 1);
    var transferred := wizard.TransferOwnership(ALICE, MAGINK);
    magink.Start(BOB, 1, 0);
    ClaimNineTimes(magink);
    assert wizard.tokenOwner == map[1 := ALICE] && wizard.totalSupply == 1 && wizard.owner == MAGINK;
    assert wizard.TokensOf(BOB) == {} && !magink.MintAccepted();
    asWritten := magink.MintWizard(BOB, true);
    holdsToken := magink.GetIsAlreadyMinted(BOB);
    checked := magink.MintWizardChecked(BOB, true);
    nextId := magink.GetNextId();
  }
}
