/**
  One campaign ("contract issue") of the goal/max or the compensative
  buyout, taken as a value: the campaign record, its payment records by
  payer, and the balance of its escrow. `CampaignSound` is the invariant
  every instruction keeps, and the lemmas here show what each kind of step
  (a payer joining, the owner drawing, a payer topping up) does to it.
 */
module Campaign {
  import opened Records
  import opened Payout
  import opened Claims

  predicate IsCompensative(ci: CIAccount) {
    ci.contractType == ContractTypeCompensativeBuyout
  }

  /** The u64 multiplication in the pay-time discount overflows. */
  predicate DiscountOverflows(ci: CIAccount) {
    ci.currcount >= ci.goalcount && Mul(ci.currcount + 1 - ci.goalcount, ci.price) >= U64Limit
  }

  /** Once the price of every unit including the new one fits in a `u64`,
      the discount's product does too. */
  lemma DiscountFits(ci: CIAccount)
    requires Mul(ci.currcount + 1, ci.price) < U64Limit
    ensures !DiscountOverflows(ci)
  {
    if ci.currcount >= ci.goalcount {
      MulLe(ci.currcount + 1 - ci.goalcount, ci.currcount + 1, ci.price);
    }
  }

  /** The invariant of one campaign: its parameters as publish left them,
      one payment record per paid unit, no payer holding more than the
      current share of the surplus, the owner having drawn no more than the
      paid units up to the goal, and an escrow that covers everything still
      owed. `ps` holds the campaign's payment records by payer. */
  ghost predicate CampaignSound(ci: CIAccount, ps: map<Address, CPAccount>, escrow: nat) {
    && CountersSound(ci)
    && PayersSound(ci, ps)
    && EscrowCovers(ci, ps, escrow)
  }

  /** Publish's parameters and the counters pay and withdraw keep in range. */
  predicate CountersSound(ci: CIAccount) {
    && ci.price > 0
    && ci.goalcount > 0
    && (if IsCompensative(ci) then ci.maxcount == 0 else ci.goalcount <= ci.maxcount && ci.currcount <= ci.maxcount)
    && ci.withdrawalCount <= Min(ci.currcount, ci.goalcount)
    && Mul(ci.currcount, ci.price) < U64Limit
  }

  /** One payment record per paid unit, none holding more than the current share. */
  predicate PayersSound(ci: CIAccount, ps: map<Address, CPAccount>) {
    && |ps| == ci.currcount
    && (forall a :: a in ps ==> ps[a].withdrawal <= Entitlement(ci.currcount, ci.goalcount, ci.price))
  }

  /** The escrow plus what the owner and the payers have drawn is at least
      the full price of every paid unit. */
  ghost predicate EscrowCovers(ci: CIAccount, ps: map<Address, CPAccount>, escrow: nat) {
    escrow + Mul(ci.withdrawalCount, ci.price) + Claimed(ps) >= Mul(ci.currcount, ci.price)
  }


  /** More in escrow never hurts. */
  lemma EscrowGrows(ci: CIAccount, ps: map<Address, CPAccount>, escrow: nat, escrow': nat)
    requires CampaignSound(ci, ps, escrow) && escrow <= escrow'
    ensures CampaignSound(ci, ps, escrow')
  {
  }

  /** A new campaign has no payers and owes nothing. */
  lemma FreshSound(ci: CIAccount, escrow: nat)
    requires ci.price > 0 && ci.goalcount > 0 && ci.currcount == 0 && ci.withdrawalCount == 0
    requires if IsCompensative(ci) then ci.maxcount == 0 else ci.goalcount <= ci.maxcount
    ensures CampaignSound(ci, map[], escrow)
  {
    var none: map<Address, CPAccount> := map[];
    assert none.Keys == {};
  }

  /** A payer joining: the count goes up by one, the payer's new record
      holds the share of the surplus now due, and the escrow receives the
      price less that share. The campaign stays sound. */
  lemma JoinSound(ci: CIAccount, ps: map<Address, CPAccount>, a: Address, v: CPAccount, escrow: nat, paid: nat)
    requires CampaignSound(ci, ps, escrow)
    requires a !in ps
    requires IsCompensative(ci) || ci.currcount < ci.maxcount
    requires Mul(ci.currcount + 1, ci.price) < U64Limit
    requires v.withdrawal == Entitlement(ci.currcount + 1, ci.goalcount, ci.price)
    requires paid + v.withdrawal == ci.price
    ensures CampaignSound(ci.(currcount := ci.currcount + 1), ps[a := v], escrow + paid)
  {
    JoinPayers(ci, ps, a, v);
    JoinCovered(ci, ps, a, v, escrow, paid);
  }

  lemma JoinPayers(ci: CIAccount, ps: map<Address, CPAccount>, a: Address, v: CPAccount)
    requires PayersSound(ci, ps)
    requires a !in ps
    requires v.withdrawal == Entitlement(ci.currcount + 1, ci.goalcount, ci.price)
    ensures PayersSound(ci.(currcount := ci.currcount + 1), ps[a := v])
  {
    EntitlementMonotone(ci.currcount, ci.currcount + 1, ci.goalcount, ci.price);
  }

  lemma JoinCovered(ci: CIAccount, ps: map<Address, CPAccount>, a: Address, v: CPAccount, escrow: nat, paid: nat)
    requires EscrowCovers(ci, ps, escrow)
    requires a !in ps
    requires paid + v.withdrawal == ci.price
    ensures EscrowCovers(ci.(currcount := ci.currcount + 1), ps[a := v], escrow + paid)
  {
    ClaimedAdd(ps, a, v);
  }

  /** The owner drawing every unit paid up to the goal and not yet drawn:
      the escrow holds at least their price, and once it is paid out the
      campaign stays sound. */
  lemma DrawSound(ci: CIAccount, ps: map<Address, CPAccount>, escrow: nat)
    requires CampaignSound(ci, ps, escrow)
    ensures Mul(Min(ci.currcount, ci.goalcount) - ci.withdrawalCount, ci.price) <= escrow
    ensures Mul(Min(ci.currcount, ci.goalcount) - ci.withdrawalCount, ci.price) < U64Limit
    ensures CampaignSound(ci.(withdrawalCount := Min(ci.currcount, ci.goalcount)), ps,
                          escrow - Mul(Min(ci.currcount, ci.goalcount) - ci.withdrawalCount, ci.price))
  {
    ClaimedAtMost(ps, Entitlement(ci.currcount, ci.goalcount, ci.price));
    ObligationsCovered(ci.currcount, ci.goalcount, ci.price, ci.withdrawalCount, Claimed(ps));
  }

  /** A payer topping up to the current share: the payer's record holds no
      more than the share, the escrow holds at least the difference, and
      once it is paid out the campaign stays sound. */
  lemma TopUpSound(ci: CIAccount, ps: map<Address, CPAccount>, a: Address, escrow: nat)
    requires CampaignSound(ci, ps, escrow) && a in ps
    ensures ps[a].withdrawal <= Entitlement(ci.currcount, ci.goalcount, ci.price)
    ensures Entitlement(ci.currcount, ci.goalcount, ci.price) - ps[a].withdrawal <= escrow
    ensures CampaignSound(ci, ps[a := ps[a].(withdrawal := Entitlement(ci.currcount, ci.goalcount, ci.price))],
                          escrow - (Entitlement(ci.currcount, ci.goalcount, ci.price) - ps[a].withdrawal))
  {
    var e := Entitlement(ci.currcount, ci.goalcount, ci.price);
    var w := ps[a].withdrawal;
    OthersBound(ps, a, e);
    TopUpCovered(ci.currcount, ci.goalcount, ci.price, ci.withdrawalCount, ClaimedAt(ps, ps.Keys - {a}));
    ClaimedUpdate(ps, a, ps[a].(withdrawal := e));
  }
}
