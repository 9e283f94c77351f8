/** The skin store: buying or equipping a cosmetic against the orb balance. */
module Store {
  import opened Entities

  predicate NoDuplicates(s: seq<string>) {
    forall i, j :: 0 <= i < j < |s| ==> s[i] != s[j]
  }

  /** The progression invariant: a non-negative balance, the default skin always
      unlocked, the equipped skin one of the unlocked ones, each id unlocked once. */
  predicate WellFormed(u: UserData) {
    && u.orbs >= 0
    && DefaultSkin in u.unlockedSkins
    && u.equippedSkin in u.unlockedSkins
    && NoDuplicates(u.unlockedSkins)
  }

  lemma DefaultUserWellFormed()
    ensures WellFormed(DefaultUser)
  {
  }

  /** An unlocked item is equipped; a locked one is bought and equipped when the balance
      covers its price; otherwise nothing changes. */
  function BuyOrEquip(u: UserData, itemId: string, price: nat): (r: UserData)
    ensures itemId in u.unlockedSkins ==> r == u.(equippedSkin := itemId)
    ensures itemId !in u.unlockedSkins && u.orbs >= price ==>
      && r.orbs == u.orbs - price
      && r.unlockedSkins == u.unlockedSkins + [itemId]
      && r.equippedSkin == itemId
    ensures itemId !in u.unlockedSkins && u.orbs < price ==> r == u
    ensures WellFormed(u) ==> WellFormed(r)
    ensures WellFormed(u) ==> (r.equippedSkin == itemId <==> itemId in u.unlockedSkins || u.orbs >= price)
    ensures u.unlockedSkins <= r.unlockedSkins
    ensures u.orbs - price <= r.orbs <= u.orbs
  {
    if itemId in u.unlockedSkins then
      u.(equippedSkin := itemId)
    else if u.orbs >= price then
      UserData(u.orbs - price, u.unlockedSkins + [itemId], itemId)
    else
      u
  }
}
