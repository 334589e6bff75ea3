/**
 * The token-issuance contract (`contract/wizard/lib.rs`), seen only through
 * the three messages Magink sends it: `PSP34::balance_of`,
 * `PSP34::total_supply` and `PSP34Mintable::mint`.  Its storage is reduced
 * to the PSP34 ledger (who owns which token id, how many tokens each
 * account holds, how many tokens exist) and the `Ownable` owner that guards
 * `mint`.
 */
module PSP34 {
  import opened Primitives

  /** A token identifier; Magink only ever builds the `Id::U128` variant. */
  type Id = nat

  /** Why the issuance contract refuses a mint. */
  datatype PSP34Error =
    | CallerIsNotOwner   // the `only_owner` refusal, which the library reports as a custom error
    | TokenExists        // the requested id is already taken

  datatype MintResult = Minted | Rejected(reason: PSP34Error)

  /** The token ids that `tokens` assigns to account `a`. */
  ghost function Owned(tokens: map<Id, AccountId>, a: AccountId): set<Id>
  {
    set id | id in tokens && tokens[id] == a
  }

  /** Assigning a new id to `to` adds that id to `to`'s tokens and to no one else's. */
  lemma OwnedAfterInsert(tokens: map<Id, AccountId>, id: Id, to: AccountId)
    requires id !in tokens
    ensures Owned(tokens[id := to], to) == Owned(tokens, to) + {id}
    ensures |Owned(tokens[id := to], to)| == |Owned(tokens, to)| + 1
    ensures forall a :: a != to ==> Owned(tokens[id := to], a) == Owned(tokens, a)
  {
    assert id !in Owned(tokens, to);
  }

  class Wizard {
    var owner: AccountId
    var tokenOwner: map<Id, AccountId>
    var ownedCount: map<AccountId, nat>
    var totalSupply: nat

    /** The token ids currently owned by `a`. */
    ghost function TokensOf(a: AccountId): set<Id>
      reads this
    {
      Owned(tokenOwner, a)
    }

    /**
     * The ledger invariant: the supply counts the tokens that exist and each
     * account's stored count is the number of tokens it owns.
     */
    ghost predicate Valid()
      reads this
    {
      && totalSupply == |tokenOwner|
      && forall a :: (if a in ownedCount then ownedCount[a] else 0) == |TokensOf(a)|
    }

    /**
     * Every id below the supply is taken and none above it: the shape the
     * ledger keeps while ids are only ever requested as `total_supply`.
     */
    ghost predicate Contiguous()
      reads this
    {
      forall id :: id in tokenOwner ==> id < totalSupply
    }

    /** A freshly deployed collection: no tokens, owned by its deployer. */
    constructor (deployer: AccountId)
      ensures Valid()
      ensures owner == deployer && tokenOwner == map[] && ownedCount == map[] && totalSupply == 0
    {
      owner := deployer;
      tokenOwner := map[];
      ownedCount := map[];
      totalSupply := 0;
    }

    /** `PSP34::balance_of`: the number of tokens `a` owns. */
    function BalanceOf(a: AccountId): (n: nat)
      reads this
      requires Valid()
      ensures n == |TokensOf(a)|
    {
      if a in ownedCount then ownedCount[a] else 0
    }

    /** `Ownable::transfer_ownership`, as used when the collection is deployed. */
    method TransferOwnership(caller: AccountId, newOwner: AccountId) returns (ok: bool)
      requires Valid()
      modifies this
      ensures Valid()
      ensures ok <==> caller == old(owner)
      ensures owner == (if ok then newOwner else old(owner))
      ensures tokenOwner == old(tokenOwner) && ownedCount == old(ownedCount) && totalSupply == old(totalSupply)
    {
      ok := caller == owner;
      if ok {
        owner := newOwner;
      }
    }

    /**
     * `PSP34Mintable::mint(to, id)` sent by `caller`: only the owner may mint,
     * and an id that already exists is refused.  A refused mint changes
     * nothing; a successful one gives `to` the new token and nothing else.
     */
    method Mint(caller: AccountId, to: AccountId, id: Id) returns (r: MintResult)
      requires Valid()
      modifies this
      ensures Valid()
      ensures r == if caller != old(owner) then Rejected(CallerIsNotOwner)
                   else if id in old(tokenOwner) then Rejected(TokenExists)
                   else Minted
      ensures r.Rejected? ==> unchanged(this)
      ensures r == Minted ==>
        && owner == old(owner)
        && tokenOwner == old(tokenOwner)[id := to]
        && ownedCount == old(ownedCount)[to := old(BalanceOf(to)) + 1]
        && totalSupply == old(totalSupply) + 1
        && TokensOf(to) == old(TokensOf(to)) + {id}
    {
      if caller != owner {
        return Rejected(CallerIsNotOwner);
      }
      if id in tokenOwner {
        return Rejected(TokenExists);
      }
      OwnedAfterInsert(tokenOwner, id, to);
      ownedCount := ownedCount[to := BalanceOf(to) + 1];
      tokenOwner := tokenOwner[id := to];
      totalSupply := totalSupply + 1;
      r := Minted;
    }
  }
}
