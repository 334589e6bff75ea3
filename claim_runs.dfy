/**
 * Runs of `claim` messages sent by one account at a sequence of blocks:
 * the badge counter only moves by successful claims, and an account that
 * waits a full era between claims has every claim accepted.
 */
module ClaimRuns {
  import opened Primitives
  import opened Magink

  /** Each block is at least `gap` after the one before it, the first at least `gap` after `start`. */
  predicate Spaced(start: int, blocks: seq<uint32>, gap: int)
    decreases |blocks|
  {
    |blocks| == 0 || (start + gap <= blocks[0] && Spaced(blocks[0], blocks[1..], gap))
  }

  /** The blocks never go backwards and none precedes `start`. */
  predicate Chronological(start: int, blocks: seq<uint32>)
  {
    Spaced(start, blocks, 0)
  }

  lemma ChronologicalFromEarlier(start: int, later: int, blocks: seq<uint32>)
    requires start <= later && Chronological(later, blocks)
    ensures Chronological(start, blocks)
  {
  }

  lemma {:induction false} SpacedIsChronological(start: int, blocks: seq<uint32>, gap: nat)
    requires Spaced(start, blocks, gap)
    ensures Chronological(start, blocks)
    decreases |blocks|
  {
    if |blocks| > 0 {
      SpacedIsChronological(blocks[0], blocks[1..], gap);
    }
  }

  /** `a` sends `claim` at each of `blocks` in turn: the outcomes and the final mapping. */
  function ClaimAll(user: map<AccountId, Profile>, a: AccountId, blocks: seq<uint32>)
    : (res: (seq<Outcome>, map<AccountId, Profile>))
    requires a in user ==> Chronological(user[a].startBlock, blocks)
    ensures |res.0| == |blocks|
    decreases |blocks|
  {
    if |blocks| == 0 then ([], user)
    else
      var step := ClaimStep(user, a, blocks[0]);
      assert a in step.1 ==> Chronological(step.1[a].startBlock, blocks[1..]) by {
        if a in user && step.0 != Ok {
          ChronologicalFromEarlier(user[a].startBlock, blocks[0], blocks[1..]);
        }
      }
      var rest := ClaimAll(step.1, a, blocks[1..]);
      ([step.0] + rest.0, rest.1)
  }

  /** How many of `outcomes` are `Ok`. */
  function Successes(outcomes: seq<Outcome>): (n: nat)
    ensures n <= |outcomes|
  {
    if |outcomes| == 0 then 0
    else (if outcomes[0] == Ok then 1 else 0) + Successes(outcomes[1..])
  }

  /**
   * Whatever the timing, claims change only the claimant's profile, keep
   * its era length, and raise its badge count by exactly the number of
   * claims that returned `Ok`, so the count never decreases.
   */
  lemma {:induction false} BadgesCountSuccesses(user: map<AccountId, Profile>, a: AccountId, blocks: seq<uint32>)
    requires a in user && Chronological(user[a].startBlock, blocks)
    ensures var (outcomes, after) := ClaimAll(user, a, blocks);
      && a in after
      && after[a].claimEra == user[a].claimEra
      && after[a].badgesClaimed == user[a].badgesClaimed + Successes(outcomes)
      && after[a].badgesClaimed >= user[a].badgesClaimed
      && forall b :: b != a ==> Lookup(after, b) == Lookup(user, b)
  {
    if |blocks| > 0 {
      var step := ClaimStep(user, a, blocks[0]);
      if step.0 != Ok {
        ChronologicalFromEarlier(user[a].startBlock, blocks[0], blocks[1..]);
      }
      BadgesCountSuccesses(step.1, a, blocks[1..]);
    }
  }

  /**
   * An account that waits at least a full era before each claim, and would
   * not pass 255 badges, has every claim accepted: it ends with one badge
   * per claim and its era restarted at the last claim.
   */
  lemma {:induction false} PatientClaimsSucceed(user: map<AccountId, Profile>, a: AccountId, blocks: seq<uint32>)
    requires a in user
    requires Spaced(user[a].startBlock, blocks, user[a].claimEra)
    requires user[a].badgesClaimed + |blocks| <= UINT8_MAX
    ensures Chronological(user[a].startBlock, blocks)
    ensures var (outcomes, after) := ClaimAll(user, a, blocks);
      && (forall i :: 0 <= i < |outcomes| ==> outcomes[i] == Ok)
      && a in after
      && after[a] == Profile(user[a].claimEra,
                             if |blocks| == 0 then user[a].startBlock else blocks[|blocks| - 1],
                             user[a].badgesClaimed + |blocks|)
  {
    SpacedIsChronological(user[a].startBlock, blocks, user[a].claimEra);
    if |blocks| > 0 {
      var step := ClaimStep(user, a, blocks[0]);
      PatientClaimsSucceed(step.1, a, blocks[1..]);
    }
  }

  /** An account that never sent `start` gets `UserNotFound` for every claim, and nothing changes. */
  lemma {:induction false} ClaimsWithoutProfile(user: map<AccountId, Profile>, a: AccountId, blocks: seq<uint32>)
    requires a !in user
    ensures var (outcomes, after) := ClaimAll(user, a, blocks);
      after == user && forall i :: 0 <= i < |outcomes| ==> outcomes[i] == Err(UserNotFound)
  {
    if |blocks| > 0 {
      ClaimsWithoutProfile(user, a, blocks[1..]);
    }
  }
}
