/**
  The goal/max buyout (contracts/goalmax_buyout.rs): an IP owner publishes a
  campaign with a unit price, a goal and a cap; payers pay in SPL tokens into
  the campaign's token account, those arriving after the goal at a discount;
  the owner draws the price of every paid unit up to the goal; every payer may
  top up what was refunded to the current share of the surplus beyond the
  goal. When the count reaches the cap the IP becomes Public.

  Each instruction is a function from the store to the store it leaves or
  the error it fails with (the transaction then reverts), and a method that
  performs the same checks and updates on a `Ledger`. Anchor checks the
  accounts first: every account that must already exist, in the order the
  struct declares them, then every `init` account, then the `constraint`s.
  The handler's statements follow in order, then the transfer.
 */
module GoalmaxBuyout {
  import opened Records
  import opened Payout
  import opened Claims
  import opened Campaign
  import opened Store

  /** The record a goal/max publish leaves: `contract_type` is never written
      by this handler, so it keeps the zero of a freshly created account. */
  function PublishedCampaign(ipid: IpId, tokenMint: Pubkey, price: nat, goalcount: nat, maxcount: nat): CIAccount {
    CIAccount(ipid, tokenMint, price, 0, goalcount, 0, maxcount, 0)
  }

  /** `publish` as written: opens the campaign of a Private IP. Nothing
      ties the signer to the IP's owner. */
  function PublishStep(c: Chain, signer: Pubkey, ipid: IpId, tokenMint: Pubkey, price: U64, goalcount: U64, maxcount: U64): Result<Chain> {
    if ipid !in c.ips then Err(AccountNotInitialized)
    else if ipid in c.cis then Err(AccountAlreadyInUse)
    else if c.ips[ipid].ownership != IpOwnershipPrivate then Err(WrongIPOwnership)
    else if price == 0 then Err(InvalidPrice)
    else if goalcount == 0 then Err(InvalidGoalcount)
    else if maxcount < goalcount then Err(InvalidMaxcount)
    else
      Ok(c.(cis := c.cis[ipid := PublishedCampaign(ipid, tokenMint, price, goalcount, maxcount)],
            cps := c.cps[ipid := map[]],
            ips := c.ips[ipid := c.ips[ipid].(ownership := IpOwnershipPublished)]))
  }

  method Publish(l: Ledger, signer: Pubkey, ipid: IpId, tokenMint: Pubkey, price: U64, goalcount: U64, maxcount: U64)
    returns (r: Result<()>)
    requires l.Valid()
    modifies l
    ensures l.Valid()
    ensures Applied(PublishStep(old(l.chain), signer, ipid, tokenMint, price, goalcount, maxcount), r, old(l.chain), l.chain)
  {
    var c := l.chain;
    if ipid !in c.ips { return Err(AccountNotInitialized); }
    if ipid in c.cis { return Err(AccountAlreadyInUse); }
    var ip := c.ips[ipid];
    if ip.ownership != IpOwnershipPrivate { return Err(WrongIPOwnership); }
    if price == 0 { return Err(InvalidPrice); }
    if goalcount == 0 { return Err(InvalidGoalcount); }
    if maxcount < goalcount { return Err(InvalidMaxcount); }

    PublishSound(c, signer, ipid, tokenMint, price, goalcount, maxcount);
    ip := ip.(ownership := IpOwnershipPublished);
    var ci := PublishedCampaign(ipid, tokenMint, price, goalcount, maxcount);
    l.chain := c.(cis := c.cis[ipid := ci], cps := c.cps[ipid := map[]], ips := c.ips[ipid := ip]);
    r := Ok(());
  }

  /** A publish keeps the store sound. */
  lemma PublishSound(c: Chain, signer: Pubkey, ipid: IpId, tokenMint: Pubkey, price: U64, goalcount: U64, maxcount: U64)
    requires Sound(c) && PublishStep(c, signer, ipid, tokenMint, price, goalcount, maxcount).Ok?
    ensures Sound(PublishStep(c, signer, ipid, tokenMint, price, goalcount, maxcount).value)
  {
    Opened(c, ipid, c.ips[ipid].(ownership := IpOwnershipPublished), PublishedCampaign(ipid, tokenMint, price, goalcount, maxcount));
  }

  /** A publish succeeds exactly when the IP exists, has no campaign yet,
      is Private, and the price, the goal and the cap are valid; the
      campaign it opens holds the parameters given, no payers and nothing
      drawn, and its IP becomes Published. */
  lemma PublishOpens(c: Chain, signer: Pubkey, ipid: IpId, tokenMint: Pubkey, price: U64, goalcount: U64, maxcount: U64)
    ensures PublishStep(c, signer, ipid, tokenMint, price, goalcount, maxcount).Ok? <==>
      && ipid in c.ips && ipid !in c.cis && c.ips[ipid].ownership == IpOwnershipPrivate
      && price > 0 && goalcount > 0 && maxcount >= goalcount
    ensures var r := PublishStep(c, signer, ipid, tokenMint, price, goalcount, maxcount);
      r.Ok? ==>
        && r.value.cis[ipid] == CIAccount(ipid, tokenMint, price, 0, goalcount, 0, maxcount, 0)
        && r.value.cps[ipid] == map[]
        && r.value.ips[ipid].ownership == IpOwnershipPublished
  {
  }

  /** The campaign record is created once per IP: once a publish succeeds,
      publishing on the same IP again fails, whoever tries and whatever the
      parameters. */
  lemma PublishOnce(c: Chain, signer: Pubkey, ipid: IpId, tokenMint: Pubkey, price: U64, goalcount: U64, maxcount: U64,
                    signer': Pubkey, tokenMint': Pubkey, price': U64, goalcount': U64, maxcount': U64)
    requires PublishStep(c, signer, ipid, tokenMint, price, goalcount, maxcount).Ok?
    ensures PublishStep(PublishStep(c, signer, ipid, tokenMint, price, goalcount, maxcount).value, signer', ipid, tokenMint', price', goalcount', maxcount')
            == Err(AccountAlreadyInUse)
  {
  }

  /** Any signer can publish someone else's Private IP and fix its price,
      goal and cap: nothing in the accounts of `publish` ties the signer to
      the IP's owner. */
  lemma StrangerPublishes(c: Chain, owner: Pubkey, stranger: Pubkey, ipid: IpId, tokenMint: Pubkey,
                          price: U64, goalcount: U64, maxcount: U64)
    requires owner != stranger && ipid in c.ips && c.ips[ipid].owner == Wallet(owner)
    requires ipid !in c.cis && c.ips[ipid].ownership == IpOwnershipPrivate
    requires 0 < price && 0 < goalcount <= maxcount
    ensures PublishStep(c, stranger, ipid, tokenMint, price, goalcount, maxcount).Ok?
    ensures PublishStep(c, stranger, ipid, tokenMint, price, goalcount, maxcount).value.cis[ipid]
            == CIAccount(ipid, tokenMint, price, 0, goalcount, 0, maxcount, 0)
  {
  }

  /** `publish` with the owner constraint it evidently intends, the one
      `withdraw` declares on its signer: the IP's owner must be the
      signer's key. */
  function PublishOwnStep(c: Chain, signer: Pubkey, ipid: IpId, tokenMint: Pubkey, price: U64, goalcount: U64, maxcount: U64)
    : Result<Chain>
  {
    if ipid !in c.ips then Err(AccountNotInitialized)
    else if ipid in c.cis then Err(AccountAlreadyInUse)
    else if c.ips[ipid].owner != Wallet(signer) then Err(ConstraintRaw)
    else PublishStep(c, signer, ipid, tokenMint, price, goalcount, maxcount)
  }

  method PublishOwn(l: Ledger, signer: Pubkey, ipid: IpId, tokenMint: Pubkey, price: U64, goalcount: U64, maxcount: U64)
    returns (r: Result<()>)
    requires l.Valid()
    modifies l
    ensures l.Valid()
    ensures Applied(PublishOwnStep(old(l.chain), signer, ipid, tokenMint, price, goalcount, maxcount), r, old(l.chain), l.chain)
  {
    var c := l.chain;
    if ipid !in c.ips { return Err(AccountNotInitialized); }
    if ipid in c.cis { return Err(AccountAlreadyInUse); }
    if c.ips[ipid].owner != Wallet(signer) { return Err(ConstraintRaw); }
    r := Publish(l, signer, ipid, tokenMint, price, goalcount, maxcount);
  }

  /** With the owner constraint only the IP's owner publishes, the owner
      publishes exactly as before, and anyone else is refused. */
  lemma OnlyOwnerPublishes(c: Chain, signer: Pubkey, ipid: IpId, tokenMint: Pubkey, price: U64, goalcount: U64, maxcount: U64)
    ensures PublishOwnStep(c, signer, ipid, tokenMint, price, goalcount, maxcount).Ok? ==> c.ips[ipid].owner == Wallet(signer)
    ensures ipid in c.ips && c.ips[ipid].owner == Wallet(signer) ==>
      PublishOwnStep(c, signer, ipid, tokenMint, price, goalcount, maxcount) == PublishStep(c, signer, ipid, tokenMint, price, goalcount, maxcount)
    ensures ipid in c.ips && ipid !in c.cis && c.ips[ipid].owner != Wallet(signer) ==>
      PublishOwnStep(c, signer, ipid, tokenMint, price, goalcount, maxcount) == Err(ConstraintRaw)
  {
  }

  /** The corrected publish keeps the store sound. */
  lemma PublishOwnSound(c: Chain, signer: Pubkey, ipid: IpId, tokenMint: Pubkey, price: U64, goalcount: U64, maxcount: U64)
    requires Sound(c) && PublishOwnStep(c, signer, ipid, tokenMint, price, goalcount, maxcount).Ok?
    ensures Sound(PublishOwnStep(c, signer, ipid, tokenMint, price, goalcount, maxcount).value)
  {
    PublishSound(c, signer, ipid, tokenMint, price, goalcount, maxcount);
  }

  /** `pay`: the signer buys one unit of the campaign on `ipid` from the
      signer's token account, at the price less the discount a payer past
      the goal receives, which the new payment record keeps. */
  function PayStep(c: Chain, signer: Pubkey, ipid: IpId): Result<Chain> {
    if ipid !in c.cis || ipid !in c.ips then Err(AccountNotInitialized)
    else if Wallet(signer) in PaymentsOf(c.cps, ipid) then Err(AccountAlreadyInUse)
    else
      var ci, ip := c.cis[ipid], c.ips[ipid];
      if DiscountOverflows(ci) then Err(ArithmeticOverflow)
      else if ip.ownership != IpOwnershipPublished then Err(WrongIPOwnership)
      else if ci.currcount >= ci.maxcount then Err(GoalAlreadyAchieved)
      else
        var d := Discount(ci.currcount, ci.goalcount, ci.price);
        var ci' := ci.(currcount := ci.currcount + 1);
        var ip' := if ci'.currcount == ci'.maxcount then ip.(ownership := IpOwnershipPublic) else ip;
        var moved := Transfer(c.tokens, Wallet(signer), CiVault(ipid), ci.price - d);
        if moved.Err? then Err(moved.error)
        else
          Ok(c.(cis := c.cis[ipid := ci'],
                cps := c.cps[ipid := PaymentsOf(c.cps, ipid)[Wallet(signer) := CPAccount(ipid, signer, d)]],
                ips := c.ips[ipid := ip'],
                tokens := moved.value))
  }

  method Pay(l: Ledger, signer: Pubkey, ipid: IpId) returns (r: Result<()>)
    requires l.Valid() && PayFits(l.chain, ipid)
    modifies l
    ensures l.Valid()
    ensures Applied(PayStep(old(l.chain), signer, ipid), r, old(l.chain), l.chain)
  {
    var c := l.chain;
    if ipid !in c.cis || ipid !in c.ips { return Err(AccountNotInitialized); }
    var ps := PaymentsOf(c.cps, ipid);
    if Wallet(signer) in ps { return Err(AccountAlreadyInUse); }
    var ci, ip := c.cis[ipid], c.ips[ipid];
    if DiscountOverflows(ci) { return Err(ArithmeticOverflow); }
    var d := Discount(ci.currcount, ci.goalcount, ci.price);
    if ip.ownership != IpOwnershipPublished { return Err(WrongIPOwnership); }
    if ci.currcount >= ci.maxcount { return Err(GoalAlreadyAchieved); }

    ci := ci.(currcount := ci.currcount + 1);
    var cp := CPAccount(ipid, signer, d);
    if ci.currcount == ci.maxcount {
      ip := ip.(ownership := IpOwnershipPublic);
    }
    var moved := Transfer(c.tokens, Wallet(signer), CiVault(ipid), ci.price - d);
    if moved.Err? { return Err(moved.error); }
    PaySound(c, signer, ipid);
    l.chain := c.(cis := c.cis[ipid := ci], cps := c.cps[ipid := ps[Wallet(signer) := cp]],
                  ips := c.ips[ipid := ip], tokens := moved.value);
    r := Ok(());
  }

  /** A pay keeps the store sound. */
  lemma PaySound(c: Chain, signer: Pubkey, ipid: IpId)
    requires Sound(c) && PayFits(c, ipid) && PayStep(c, signer, ipid).Ok?
    ensures Sound(PayStep(c, signer, ipid).value)
  {
    var ci, ip := c.cis[ipid], c.ips[ipid];
    var d := Discount(ci.currcount, ci.goalcount, ci.price);
    var ip' := if ci.currcount + 1 == ci.maxcount then ip.(ownership := IpOwnershipPublic) else ip;
    var tokens' := Transfer(c.tokens, Wallet(signer), CiVault(ipid), ci.price - d).value;
    CampaignAt(c, ipid);
    TransferDebits(c.tokens, Wallet(signer), CiVault(ipid), ci.price - d);
    Joined(c, ipid, ip', Wallet(signer), CPAccount(ipid, signer, d), c.lamports, tokens', Wallet(signer));
  }

  /** Within the u64 bound the discount never overflows. */
  lemma PayNoOverflow(c: Chain, signer: Pubkey, ipid: IpId)
    requires PayFits(c, ipid)
    ensures PayStep(c, signer, ipid) != Err(ArithmeticOverflow)
  {
    if ipid in c.cis {
      DiscountFits(c.cis[ipid]);
    }
  }

  /** What a successful pay does on a sound store: the count goes up by
      exactly one and nothing else in the campaign record changes; the
      payer is charged something, never more than the price, the campaign's
      token account receiving exactly that; the new payment record holds
      the share of the surplus now due; the IP becomes Public exactly when
      the count reaches the cap. */
  lemma PayCharges(c: Chain, signer: Pubkey, ipid: IpId)
    requires Sound(c) && PayStep(c, signer, ipid).Ok?
    ensures var c' := PayStep(c, signer, ipid).value;
      var ci := c.cis[ipid];
      var charged := ci.price - Entitlement(ci.currcount + 1, ci.goalcount, ci.price);
      && 0 < charged <= ci.price
      && c'.cis == c.cis[ipid := ci.(currcount := ci.currcount + 1)]
      && c'.cps[ipid][Wallet(signer)].withdrawal == Entitlement(ci.currcount + 1, ci.goalcount, ci.price)
      && Balance(c'.tokens, Wallet(signer)) + charged == Balance(c.tokens, Wallet(signer))
      && Balance(c'.tokens, CiVault(ipid)) == Balance(c.tokens, CiVault(ipid)) + charged
      && (c'.ips[ipid].ownership == IpOwnershipPublic <==> ci.currcount + 1 == ci.maxcount)
  {
    CampaignAt(c, ipid);
  }

  /** The payment record is created once per payer and campaign: once a pay
      succeeds, the same signer paying the same campaign again fails. */
  lemma PayOnce(c: Chain, signer: Pubkey, ipid: IpId)
    requires PayStep(c, signer, ipid).Ok?
    ensures PayStep(PayStep(c, signer, ipid).value, signer, ipid) == Err(AccountAlreadyInUse)
  {
  }

  /** On a sound store no goal/max campaign goes past its cap: a pay on a
      full campaign fails. */
  lemma PayCapped(c: Chain, signer: Pubkey, ipid: IpId)
    requires Sound(c) && ipid in c.cis
    ensures c.cis[ipid].currcount <= c.cis[ipid].maxcount || IsCompensative(c.cis[ipid])
    ensures c.cis[ipid].currcount == c.cis[ipid].maxcount ==> PayStep(c, signer, ipid).Err?
  {
    CampaignAt(c, ipid);
  }

  /** `withdraw`: the IP's owner draws the price of every unit paid up to
      the goal and not drawn yet, into any token account `dest`. The
      subtraction and the product are unchecked `u64` operations. */
  function WithdrawStep(c: Chain, signer: Pubkey, ipid: IpId, dest: Address): Result<Chain> {
    if ipid !in c.cis || ipid !in c.ips then Err(AccountNotInitialized)
    else if c.ips[ipid].owner != Wallet(signer) then Err(ConstraintRaw)
    else
      var ci := c.cis[ipid];
      if ci.withdrawalCount > Min(ci.currcount, ci.goalcount) then Err(ArithmeticOverflow)
      else
        var count := Min(ci.currcount, ci.goalcount) - ci.withdrawalCount;
        if count == 0 then Err(ContractHasNoLamports)
        else if Mul(count, ci.price) >= U64Limit then Err(ArithmeticOverflow)
        else
          var moved := Transfer(c.tokens, CiVault(ipid), dest, Mul(count, ci.price));
          if moved.Err? then Err(moved.error)
          else Ok(c.(cis := c.cis[ipid := ci.(withdrawalCount := ci.withdrawalCount + count)], tokens := moved.value))
  }

  method Withdraw(l: Ledger, signer: Pubkey, ipid: IpId, dest: Address) returns (r: Result<()>)
    requires l.Valid()
    modifies l
    ensures l.Valid()
    ensures Applied(WithdrawStep(old(l.chain), signer, ipid, dest), r, old(l.chain), l.chain)
  {
    var c := l.chain;
    if ipid !in c.cis || ipid !in c.ips { return Err(AccountNotInitialized); }
    if c.ips[ipid].owner != Wallet(signer) { return Err(ConstraintRaw); }
    var ci := c.cis[ipid];
    if ci.withdrawalCount > Min(ci.currcount, ci.goalcount) { return Err(ArithmeticOverflow); }
    var count := Min(ci.currcount, ci.goalcount) - ci.withdrawalCount;
    if count == 0 { return Err(ContractHasNoLamports); }
    var amount := Mul(count, ci.price);
    if amount >= U64Limit { return Err(ArithmeticOverflow); }
    ci := ci.(withdrawalCount := ci.withdrawalCount + count);
    var moved := Transfer(c.tokens, CiVault(ipid), dest, amount);
    if moved.Err? { return Err(moved.error); }
    WithdrawSound(c, signer, ipid, dest);
    l.chain := c.(cis := c.cis[ipid := ci], tokens := moved.value);
    r := Ok(());
  }

  /** Only the IP's owner withdraws: anyone else is refused by the owner
      constraint, before any arithmetic. */
  lemma WithdrawOwnerOnly(c: Chain, signer: Pubkey, ipid: IpId, dest: Address)
    ensures WithdrawStep(c, signer, ipid, dest).Ok? ==> c.ips[ipid].owner == Wallet(signer)
    ensures ipid in c.cis && ipid in c.ips && c.ips[ipid].owner != Wallet(signer) ==>
      WithdrawStep(c, signer, ipid, dest) == Err(ConstraintRaw)
  {
  }

  /** A second withdraw straight after a successful one finds nothing
      left to draw: the first brings the withdrawal count up to the units
      sold toward the goal. */
  lemma WithdrawOnce(c: Chain, signer: Pubkey, ipid: IpId, dest: Address, dest': Address)
    requires WithdrawStep(c, signer, ipid, dest).Ok?
    ensures WithdrawStep(WithdrawStep(c, signer, ipid, dest).value, signer, ipid, dest') == Err(ContractHasNoLamports)
  {
  }

  /** A withdraw keeps the store sound. */
  lemma WithdrawSound(c: Chain, signer: Pubkey, ipid: IpId, dest: Address)
    requires Sound(c) && WithdrawStep(c, signer, ipid, dest).Ok?
    ensures Sound(WithdrawStep(c, signer, ipid, dest).value)
  {
    var ci := c.cis[ipid];
    var amount := Mul(Min(ci.currcount, ci.goalcount) - ci.withdrawalCount, ci.price);
    TransferDebits(c.tokens, CiVault(ipid), dest, amount);
    Drawn(c, ipid, c.lamports, Transfer(c.tokens, CiVault(ipid), dest, amount).value, CiVault(ipid));
  }

  /** On a sound store a withdraw never overflows, and the token account
      of a goal/max campaign always holds the amount drawn. */
  lemma WithdrawSafe(c: Chain, signer: Pubkey, ipid: IpId, dest: Address)
    requires Sound(c)
    ensures WithdrawStep(c, signer, ipid, dest) != Err(ArithmeticOverflow)
    ensures ipid in c.cis && !IsCompensative(c.cis[ipid]) ==> WithdrawStep(c, signer, ipid, dest) != Err(InsufficientFunds)
  {
    if ipid in c.cis {
      DrawCovered(c, ipid);
    }
  }

  /** A successful withdraw brings the drawn count up to
      `min(currcount, goalcount)`, moves exactly the price of the units
      drawn from the campaign's token account to `dest`, and changes no
      other record or balance. */
  lemma WithdrawDraws(c: Chain, signer: Pubkey, ipid: IpId, dest: Address)
    requires Sound(c) && WithdrawStep(c, signer, ipid, dest).Ok? && dest != CiVault(ipid)
    ensures var c' := WithdrawStep(c, signer, ipid, dest).value;
      var ci := c.cis[ipid];
      var amount := Mul(Min(ci.currcount, ci.goalcount) - ci.withdrawalCount, ci.price);
      && c'.cis == c.cis[ipid := ci.(withdrawalCount := Min(ci.currcount, ci.goalcount))]
      && Balance(c'.tokens, dest) == Balance(c.tokens, dest) + amount
      && Balance(c'.tokens, CiVault(ipid)) + amount == Balance(c.tokens, CiVault(ipid))
      && (forall a :: a != dest && a != CiVault(ipid) ==> Balance(c'.tokens, a) == Balance(c.tokens, a))
      && c'.(cis := c.cis, tokens := c.tokens) == c
  {
    DrawCovered(c, ipid);
  }

  /** On a sound store the unchecked `min(curr, goal) - withdrawal_count`
      never goes below zero, the amount fits in a `u64`, and a goal/max
      campaign's token account holds it. */
  lemma DrawCovered(c: Chain, ipid: IpId)
    requires Sound(c) && ipid in c.cis
    ensures var ci := c.cis[ipid];
      && ci.withdrawalCount <= Min(ci.currcount, ci.goalcount)
      && Mul(Min(ci.currcount, ci.goalcount) - ci.withdrawalCount, ci.price) < U64Limit
      && Mul(Min(ci.currcount, ci.goalcount) - ci.withdrawalCount, ci.price)
           <= Escrow(ci, ipid, c.lamports, c.tokens)
  {
    var ci := c.cis[ipid];
    CampaignAt(c, ipid);
    DrawSound(ci, c.cps[ipid], Escrow(ci, ipid, c.lamports, c.tokens));
  }

  /** The amount `bonus` pays a payer whose record holds `withdrawal`, or
      why it fails: the surplus count `curr - goal` saturates at zero, its
      product with the price must fit in a `u64`, the share is 0 when there
      are no payers, and the payout is the share less what the payer
      already holds, saturating at zero, and must be positive. */
  function BonusAmount(ci: CIAccount, withdrawal: nat): (r: Result<nat>)
    ensures r.Ok? ==> 0 < r.value && withdrawal + r.value == Entitlement(ci.currcount, ci.goalcount, ci.price)
    ensures r.Err? ==> r.error == MathFailure || r.error == ContractHasNoLamports
  {
    var diff := if ci.currcount > ci.goalcount then ci.currcount - ci.goalcount else 0;
    var numerator := Mul(diff, ci.price);
    if numerator >= U64Limit then Err(MathFailure)
    else
      var share := if ci.currcount == 0 then 0 else Div(numerator, ci.currcount);
      assert share == Entitlement(ci.currcount, ci.goalcount, ci.price);
      var amount := if share > withdrawal then share - withdrawal else 0;
      if amount == 0 then Err(ContractHasNoLamports) else Ok(amount)
  }

  /** `bonus` fails with MathFailure exactly when the surplus count times
      the price overflows a `u64`, and otherwise pays exactly when the
      payer's record holds less than the current share. */
  lemma BonusTopsUp(ci: CIAccount, withdrawal: nat)
    ensures var surplus := if ci.currcount > ci.goalcount then ci.currcount - ci.goalcount else 0;
      BonusAmount(ci, withdrawal) == Err(MathFailure) <==> Mul(surplus, ci.price) >= U64Limit
    ensures var surplus := if ci.currcount > ci.goalcount then ci.currcount - ci.goalcount else 0;
      Mul(surplus, ci.price) < U64Limit ==>
        (BonusAmount(ci, withdrawal).Ok? <==> withdrawal < Entitlement(ci.currcount, ci.goalcount, ci.price))
  {
  }

  /** On a sound campaign the multiplication never overflows. */
  lemma NoMathFailure(ci: CIAccount, withdrawal: nat)
    requires CountersSound(ci)
    ensures BonusAmount(ci, withdrawal) != Err(MathFailure)
  {
    var surplus := if ci.currcount > ci.goalcount then ci.currcount - ci.goalcount else 0;
    MulLe(surplus, ci.currcount, ci.price);
  }

  /** `bonus`: the signer tops up the payment record the signer's wallet
      made in the campaign on `ipid` to the current share of the surplus,
      receiving the difference in any token account `dest`. */
  function BonusStep(c: Chain, signer: Pubkey, ipid: IpId, dest: Address): Result<Chain> {
    if ipid !in c.cis || Wallet(signer) !in PaymentsOf(c.cps, ipid) then Err(AccountNotInitialized)
    else
      var ps := PaymentsOf(c.cps, ipid);
      var cp := ps[Wallet(signer)];
      var amount := BonusAmount(c.cis[ipid], cp.withdrawal);
      if amount.Err? then Err(amount.error)
      else
        var moved := Transfer(c.tokens, CiVault(ipid), dest, amount.value);
        if moved.Err? then Err(moved.error)
        else
          Ok(c.(cps := c.cps[ipid := ps[Wallet(signer) := cp.(withdrawal := cp.withdrawal + amount.value)]],
                tokens := moved.value))
  }

  method Bonus(l: Ledger, signer: Pubkey, ipid: IpId, dest: Address) returns (r: Result<()>)
    requires l.Valid()
    modifies l
    ensures l.Valid()
    ensures Applied(BonusStep(old(l.chain), signer, ipid, dest), r, old(l.chain), l.chain)
  {
    var c := l.chain;
    if ipid !in c.cis { return Err(AccountNotInitialized); }
    var ps := PaymentsOf(c.cps, ipid);
    if Wallet(signer) !in ps { return Err(AccountNotInitialized); }
    var cp := ps[Wallet(signer)];
    var amount := BonusAmount(c.cis[ipid], cp.withdrawal);
    if amount.Err? { return Err(amount.error); }
    cp := cp.(withdrawal := cp.withdrawal + amount.value);
    var moved := Transfer(c.tokens, CiVault(ipid), dest, amount.value);
    if moved.Err? { return Err(moved.error); }
    BonusSound(c, signer, ipid, dest);
    l.chain := c.(cps := c.cps[ipid := ps[Wallet(signer) := cp]], tokens := moved.value);
    r := Ok(());
  }

  /** Only payers claim: a signer without a payment record in the
      campaign is refused, whatever the campaign holds. */
  lemma BonusPayersOnly(c: Chain, signer: Pubkey, ipid: IpId, dest: Address)
    ensures Wallet(signer) !in PaymentsOf(c.cps, ipid) ==> BonusStep(c, signer, ipid, dest) == Err(AccountNotInitialized)
    ensures BonusStep(c, signer, ipid, dest).Ok? ==> Wallet(signer) in PaymentsOf(c.cps, ipid)
  {
  }

  /** A bonus keeps the store sound. */
  lemma BonusSound(c: Chain, signer: Pubkey, ipid: IpId, dest: Address)
    requires Sound(c) && BonusStep(c, signer, ipid, dest).Ok?
    ensures Sound(BonusStep(c, signer, ipid, dest).value)
  {
    var amount := BonusAmount(c.cis[ipid], PaymentsOf(c.cps, ipid)[Wallet(signer)].withdrawal).value;
    TransferDebits(c.tokens, CiVault(ipid), dest, amount);
    ToppedUp(c, ipid, Wallet(signer), c.lamports, Transfer(c.tokens, CiVault(ipid), dest, amount).value, CiVault(ipid));
  }

  /** On a sound store a bonus never fails with MathFailure, and the token
      account of a goal/max campaign always holds the top-up. */
  lemma BonusSafe(c: Chain, signer: Pubkey, ipid: IpId, dest: Address)
    requires Sound(c)
    ensures BonusStep(c, signer, ipid, dest) != Err(MathFailure)
    ensures ipid in c.cis && !IsCompensative(c.cis[ipid]) ==> BonusStep(c, signer, ipid, dest) != Err(InsufficientFunds)
  {
    if ipid in c.cis && Wallet(signer) in PaymentsOf(c.cps, ipid) {
      TopUpCovered(c, ipid, Wallet(signer));
    }
  }

  /** A successful bonus leaves the payer's record holding exactly the
      current share of the surplus, moves the difference from the
      campaign's token account to `dest`, and changes no other record or
      balance. */
  lemma BonusTopsUpRecord(c: Chain, signer: Pubkey, ipid: IpId, dest: Address)
    requires Sound(c) && BonusStep(c, signer, ipid, dest).Ok? && dest != CiVault(ipid)
    ensures var c' := BonusStep(c, signer, ipid, dest).value;
      var ci := c.cis[ipid];
      var e := Entitlement(ci.currcount, ci.goalcount, ci.price);
      var w := PaymentsOf(c.cps, ipid)[Wallet(signer)].withdrawal;
      && w < e
      && c'.cps == c.cps[ipid := PaymentsOf(c.cps, ipid)[Wallet(signer) := PaymentsOf(c.cps, ipid)[Wallet(signer)].(withdrawal := e)]]
      && Balance(c'.tokens, dest) == Balance(c.tokens, dest) + (e - w)
      && Balance(c'.tokens, CiVault(ipid)) + (e - w) == Balance(c.tokens, CiVault(ipid))
      && (forall a :: a != dest && a != CiVault(ipid) ==> Balance(c'.tokens, a) == Balance(c.tokens, a))
      && c'.(cps := c.cps, tokens := c.tokens) == c
  {
  }

  /** On a sound store the bonus never overflows, and a goal/max campaign's
      token account holds what the payer may still claim. */
  lemma TopUpCovered(c: Chain, ipid: IpId, a: Address)
    requires Sound(c) && ipid in c.cis && a in PaymentsOf(c.cps, ipid)
    ensures BonusAmount(c.cis[ipid], PaymentsOf(c.cps, ipid)[a].withdrawal) != Err(MathFailure)
    ensures var ci := c.cis[ipid];
      && PaymentsOf(c.cps, ipid)[a].withdrawal <= Entitlement(ci.currcount, ci.goalcount, ci.price)
      && Entitlement(ci.currcount, ci.goalcount, ci.price) - PaymentsOf(c.cps, ipid)[a].withdrawal <= Escrow(ci, ipid, c.lamports, c.tokens)
  {
    var ci := c.cis[ipid];
    CampaignAt(c, ipid);
    NoMathFailure(ci, c.cps[ipid][a].withdrawal);
    TopUpSound(ci, c.cps[ipid], a, Escrow(ci, ipid, c.lamports, c.tokens));
  }

  /** After a bonus the payer holds the whole share: claiming again at
      once pays nothing and fails. */
  lemma BonusIdempotent(c: Chain, signer: Pubkey, ipid: IpId, dest: Address, dest': Address)
    requires BonusStep(c, signer, ipid, dest).Ok?
    ensures BonusStep(BonusStep(c, signer, ipid, dest).value, signer, ipid, dest') == Err(ContractHasNoLamports)
  {
    var cp := c.cps[ipid][Wallet(signer)];
    var amount := BonusAmount(c.cis[ipid], cp.withdrawal);
    assert BonusAmount(c.cis[ipid], cp.withdrawal + amount.value) == Err(ContractHasNoLamports);
  }
}
