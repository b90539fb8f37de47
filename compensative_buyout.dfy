/**
  The compensative buyout (contracts/compensative_buyout.rs, with the
  account declarations of state.rs): an IP owner, acting through the user
  record that owns the IP, publishes an uncapped campaign with a unit price
  and a goal; payers pay in lamports straight to the campaign record, those
  arriving after the goal at a discount, and each payment also leaves a
  credit record proving the purchase; the owner draws the price of every
  paid unit up to the goal into the owner's user record; every payer may top
  up what was refunded, into the payer's user record, to the current share
  of the surplus beyond the goal.

  The payment and credit records are keyed by the payer's user record, and
  every instruction checks that the campaign is of the compensative type
  after its other guards. The lamport decrements on the campaign record are
  unchecked `u64` subtractions: a shortfall aborts the transaction, which
  the lemmas here show a sound store never meets.
 */
module CompensativeBuyout {
  import opened Records
  import opened Payout
  import opened Claims
  import opened Campaign
  import opened Store

  /** `owner` is a user record that exists, as an `Account<UserAccount>`
      demands of the account passed in. */
  predicate IsUserRecord(c: Chain, owner: Address) {
    owner.UserPda? && owner.user in c.users
  }

  /** The record a compensative publish leaves: no cap, and the fields this
      variant's record does not have keep the zero of a fresh account. */
  function CompensativeCampaign(price: nat, goalcount: nat): CIAccount {
    CIAccount(0, DefaultKey, price, ContractTypeCompensativeBuyout, goalcount, 0, 0, 0)
  }

  /** `publish`: the signer, through the user record `owner` that owns the
      IP, opens the campaign of a Private IP. The cap argument is ignored. */
  function PublishStep(c: Chain, signer: Pubkey, ipid: IpId, owner: Address, price: U64, goalcount: U64, maxcount: U64)
    : Result<Chain>
  {
    if ipid !in c.ips || !IsUserRecord(c, owner) then Err(AccountNotInitialized)
    else if ipid in c.cis then Err(AccountAlreadyInUse)
    else if c.ips[ipid].owner != owner then Err(ConstraintRaw)
    else if c.users[owner.user].useraddr != signer then Err(ConstraintRaw)
    else if c.ips[ipid].ownership != IpOwnershipPrivate then Err(WrongIPOwnership)
    else if price == 0 then Err(InvalidPrice)
    else if goalcount == 0 then Err(InvalidGoalcount)
    else
      Ok(c.(cis := c.cis[ipid := CompensativeCampaign(price, goalcount)],
            cps := c.cps[ipid := map[]],
            ips := c.ips[ipid := c.ips[ipid].(ownership := IpOwnershipPublished)]))
  }

  method Publish(l: Ledger, signer: Pubkey, ipid: IpId, owner: Address, price: U64, goalcount: U64, maxcount: U64)
    returns (r: Result<()>)
    requires l.Valid()
    modifies l
    ensures l.Valid()
    ensures Applied(PublishStep(old(l.chain), signer, ipid, owner, price, goalcount, maxcount), r, old(l.chain), l.chain)
  {
    var c := l.chain;
    if ipid !in c.ips || !IsUserRecord(c, owner) { return Err(AccountNotInitialized); }
    if ipid in c.cis { return Err(AccountAlreadyInUse); }
    var ip := c.ips[ipid];
    if ip.owner != owner { return Err(ConstraintRaw); }
    if c.users[owner.user].useraddr != signer { return Err(ConstraintRaw); }
    if ip.ownership != IpOwnershipPrivate { return Err(WrongIPOwnership); }
    if price == 0 { return Err(InvalidPrice); }
    if goalcount == 0 { return Err(InvalidGoalcount); }

    PublishSound(c, signer, ipid, owner, price, goalcount, maxcount);
    ip := ip.(ownership := IpOwnershipPublished);
    var ci := CompensativeCampaign(price, goalcount);
    l.chain := c.(cis := c.cis[ipid := ci], cps := c.cps[ipid := map[]], ips := c.ips[ipid := ip]);
    r := Ok(());
  }

  /** A publish keeps the store sound. */
  lemma PublishSound(c: Chain, signer: Pubkey, ipid: IpId, owner: Address, price: U64, goalcount: U64, maxcount: U64)
    requires Sound(c) && PublishStep(c, signer, ipid, owner, price, goalcount, maxcount).Ok?
    ensures Sound(PublishStep(c, signer, ipid, owner, price, goalcount, maxcount).value)
  {
    Opened(c, ipid, c.ips[ipid].(ownership := IpOwnershipPublished), CompensativeCampaign(price, goalcount));
  }

  /** A publish succeeds exactly when the IP and the owner record exist,
      the IP has no campaign yet, the owner record owns the IP and names
      the signer, the IP is Private, and the price and the goal are
      positive; the campaign it opens is compensative, uncapped whatever
      cap was passed, with no payers and nothing drawn, and its IP becomes
      Published. */
  lemma PublishOpens(c: Chain, signer: Pubkey, ipid: IpId, owner: Address, price: U64, goalcount: U64, maxcount: U64)
    ensures PublishStep(c, signer, ipid, owner, price, goalcount, maxcount).Ok? <==>
      && ipid in c.ips && owner.UserPda? && owner.user in c.users && ipid !in c.cis
      && c.ips[ipid].owner == owner && c.users[owner.user].useraddr == signer
      && c.ips[ipid].ownership == IpOwnershipPrivate && price > 0 && goalcount > 0
    ensures var r := PublishStep(c, signer, ipid, owner, price, goalcount, maxcount);
      r.Ok? ==>
        && IsCompensative(r.value.cis[ipid])
        && r.value.cis[ipid].price == price && r.value.cis[ipid].goalcount == goalcount
        && r.value.cis[ipid].maxcount == 0
        && r.value.cis[ipid].currcount == 0 && r.value.cis[ipid].withdrawalCount == 0
        && r.value.cps[ipid] == map[]
        && r.value.ips[ipid].ownership == IpOwnershipPublished
  {
  }

  /** The campaign record is created once per IP. */
  lemma PublishOnce(c: Chain, signer: Pubkey, ipid: IpId, owner: Address, price: U64, goalcount: U64,
                    maxcount: U64, price': U64, goalcount': U64, maxcount': U64)
    requires PublishStep(c, signer, ipid, owner, price, goalcount, maxcount).Ok?
    ensures PublishStep(PublishStep(c, signer, ipid, owner, price, goalcount, maxcount).value,
                        signer, ipid, owner, price', goalcount', maxcount') == Err(AccountAlreadyInUse)
  {
  }

  /** `pay`: the signer buys one unit of the campaign on `ipid` with
      lamports from the signer's wallet, at the price less the discount a
      payer past the goal receives, which the new payment record holds. The
      credit record and the payment record are both created. */
  function PayStep(c: Chain, signer: Pubkey, ipid: IpId): Result<Chain> {
    if ipid !in c.cis || ipid !in c.ips || signer !in c.users then Err(AccountNotInitialized)
    else if CpKey(UserPda(signer), ipid) in c.credits then Err(AccountAlreadyInUse)
    else if UserPda(signer) in PaymentsOf(c.cps, ipid) then Err(AccountAlreadyInUse)
    else
      var ci := c.cis[ipid];
      if DiscountOverflows(ci) then Err(ArithmeticOverflow)
      else
        var charged := ci.price - Discount(ci.currcount, ci.goalcount, ci.price);
        if Balance(c.lamports, Wallet(signer)) < charged then Err(LamportsNotEnough)
        else if c.ips[ipid].ownership != IpOwnershipPublished then Err(WrongIPOwnership)
        else if !IsCompensative(ci) then Err(WrongContractType)
        else
          var cp := CPAccount(0, DefaultKey, Discount(ci.currcount, ci.goalcount, ci.price));
          Ok(c.(cis := c.cis[ipid := ci.(currcount := ci.currcount + 1)],
                cps := c.cps[ipid := PaymentsOf(c.cps, ipid)[UserPda(signer) := cp]],
                credits := c.credits + {CpKey(UserPda(signer), ipid)},
                lamports := Transfer(c.lamports, Wallet(signer), CiPda(ipid), charged).value))
  }

  method Pay(l: Ledger, signer: Pubkey, ipid: IpId) returns (r: Result<()>)
    requires l.Valid() && PayFits(l.chain, ipid)
    modifies l
    ensures l.Valid()
    ensures Applied(PayStep(old(l.chain), signer, ipid), r, old(l.chain), l.chain)
  {
    var c := l.chain;
    if ipid !in c.cis || ipid !in c.ips || signer !in c.users { return Err(AccountNotInitialized); }
    var credit := CpKey(UserPda(signer), ipid);
    if credit in c.credits { return Err(AccountAlreadyInUse); }
    var ps := PaymentsOf(c.cps, ipid);
    if UserPda(signer) in ps { return Err(AccountAlreadyInUse); }
    var ci := c.cis[ipid];
    if DiscountOverflows(ci) { return Err(ArithmeticOverflow); }
    var withdrawable := Discount(ci.currcount, ci.goalcount, ci.price);
    if Balance(c.lamports, Wallet(signer)) < ci.price - withdrawable { return Err(LamportsNotEnough); }
    if c.ips[ipid].ownership != IpOwnershipPublished { return Err(WrongIPOwnership); }
    if !IsCompensative(ci) { return Err(WrongContractType); }

    var cp := CPAccount(0, DefaultKey, withdrawable);
    var moved := Transfer(c.lamports, Wallet(signer), CiPda(ipid), ci.price - withdrawable);
    PaySound(c, signer, ipid);
    l.chain := c.(cis := c.cis[ipid := ci.(currcount := ci.currcount + 1)], cps := c.cps[ipid := ps[UserPda(signer) := cp]],
                  credits := c.credits + {credit}, lamports := moved.value);
    r := Ok(());
  }

  /** A pay keeps the store sound. */
  lemma PaySound(c: Chain, signer: Pubkey, ipid: IpId)
    requires Sound(c) && PayFits(c, ipid) && PayStep(c, signer, ipid).Ok?
    ensures Sound(PayStep(c, signer, ipid).value)
  {
    var ci := c.cis[ipid];
    var d := Discount(ci.currcount, ci.goalcount, ci.price);
    var lamports' := Transfer(c.lamports, Wallet(signer), CiPda(ipid), ci.price - d).value;
    TransferDebits(c.lamports, Wallet(signer), CiPda(ipid), ci.price - d);
    assert c.ips[ipid := c.ips[ipid]] == c.ips;
    Joined(c, ipid, c.ips[ipid], UserPda(signer), CPAccount(0, DefaultKey, d), lamports', c.tokens, Wallet(signer));
  }

  /** Within the u64 bound the discount never overflows. (The lamport
      check before the transfer means the transfer itself never fails.) */
  lemma PayNoOverflow(c: Chain, signer: Pubkey, ipid: IpId)
    requires PayFits(c, ipid)
    ensures PayStep(c, signer, ipid) != Err(ArithmeticOverflow)
  {
    if ipid in c.cis {
      DiscountFits(c.cis[ipid]);
    }
  }

  /** What a successful pay does: the count goes up by exactly one with no
      cap and nothing else in the campaign record changes; the payer is
      charged something, never more than the price, and the campaign record
      receives exactly that; the new payment record holds (not adds) the
      share of the surplus now due; the credit record now exists; the IP
      stays Published. */
  lemma PayCharges(c: Chain, signer: Pubkey, ipid: IpId)
    requires Sound(c) && PayStep(c, signer, ipid).Ok?
    ensures var c' := PayStep(c, signer, ipid).value;
      var ci := c.cis[ipid];
      var charged := ci.price - Entitlement(ci.currcount + 1, ci.goalcount, ci.price);
      && 0 < charged <= ci.price
      && c'.cis == c.cis[ipid := ci.(currcount := ci.currcount + 1)]
      && c'.cps[ipid][UserPda(signer)].withdrawal == Entitlement(ci.currcount + 1, ci.goalcount, ci.price)
      && CpKey(UserPda(signer), ipid) in c'.credits
      && Balance(c'.lamports, Wallet(signer)) + charged == Balance(c.lamports, Wallet(signer))
      && Balance(c'.lamports, CiPda(ipid)) == Balance(c.lamports, CiPda(ipid)) + charged
      && c'.ips == c.ips
  {
    CampaignAt(c, ipid);
  }

  /** The payment and credit records are created once per user and
      campaign: the same signer paying the same campaign again fails. */
  lemma PayOnce(c: Chain, signer: Pubkey, ipid: IpId)
    requires PayStep(c, signer, ipid).Ok?
    ensures PayStep(PayStep(c, signer, ipid).value, signer, ipid) == Err(AccountAlreadyInUse)
  {
  }

  /** Nothing caps a compensative campaign: on a sound store, a signer who
      has a user record, has not paid yet, and holds the price can always
      pay a compensative campaign whose IP is Published, however many have
      paid. */
  lemma PayUncapped(c: Chain, signer: Pubkey, ipid: IpId)
    requires Sound(c) && PayFits(c, ipid) && ipid in c.cis && ipid in c.ips && signer in c.users
    requires IsCompensative(c.cis[ipid]) && c.ips[ipid].ownership == IpOwnershipPublished
    requires CpKey(UserPda(signer), ipid) !in c.credits && UserPda(signer) !in PaymentsOf(c.cps, ipid)
    requires Balance(c.lamports, Wallet(signer)) >= c.cis[ipid].price
    ensures PayStep(c, signer, ipid).Ok?
  {
    DiscountFits(c.cis[ipid]);
  }

  /** `withdraw`: the signer, through the user record `owner` that owns
      the IP, draws the price of every unit paid up to the goal and not
      drawn yet into that user record. */
  function WithdrawStep(c: Chain, signer: Pubkey, ipid: IpId, owner: Address): Result<Chain> {
    if ipid !in c.cis || ipid !in c.ips || !IsUserRecord(c, owner) then Err(AccountNotInitialized)
    else if c.ips[ipid].owner != owner then Err(ConstraintRaw)
    else if c.users[owner.user].useraddr != signer then Err(ConstraintRaw)
    else
      var ci := c.cis[ipid];
      if ci.withdrawalCount > Min(ci.currcount, ci.goalcount) then Err(ArithmeticOverflow)
      else
        var count := Min(ci.currcount, ci.goalcount) - ci.withdrawalCount;
        if count == 0 then Err(ContractHasNoLamports)
        else if !IsCompensative(ci) then Err(WrongContractType)
        else if Mul(count, ci.price) >= U64Limit then Err(ArithmeticOverflow)
        else
          var moved := Transfer(c.lamports, CiPda(ipid), owner, Mul(count, ci.price));
          if moved.Err? then Err(ArithmeticOverflow)
          else Ok(c.(cis := c.cis[ipid := ci.(withdrawalCount := ci.withdrawalCount + count)], lamports := moved.value))
  }

  method Withdraw(l: Ledger, signer: Pubkey, ipid: IpId, owner: Address) returns (r: Result<()>)
    requires l.Valid()
    modifies l
    ensures l.Valid()
    ensures Applied(WithdrawStep(old(l.chain), signer, ipid, owner), r, old(l.chain), l.chain)
  {
    var c := l.chain;
    if ipid !in c.cis || ipid !in c.ips || !IsUserRecord(c, owner) { return Err(AccountNotInitialized); }
    if c.ips[ipid].owner != owner { return Err(ConstraintRaw); }
    if c.users[owner.user].useraddr != signer { return Err(ConstraintRaw); }
    var ci := c.cis[ipid];
    if ci.withdrawalCount > Min(ci.currcount, ci.goalcount) { return Err(ArithmeticOverflow); }
    var withdrawable := Min(ci.currcount, ci.goalcount) - ci.withdrawalCount;
    if withdrawable == 0 { return Err(ContractHasNoLamports); }
    if !IsCompensative(ci) { return Err(WrongContractType); }

    ci := ci.(withdrawalCount := ci.withdrawalCount + withdrawable);
    var amount := Mul(withdrawable, ci.price);
    if amount >= U64Limit { return Err(ArithmeticOverflow); }
    var moved := Transfer(c.lamports, CiPda(ipid), owner, amount);
    if moved.Err? { return Err(ArithmeticOverflow); }
    WithdrawSound(c, signer, ipid, owner);
    l.chain := c.(cis := c.cis[ipid := ci], lamports := moved.value);
    r := Ok(());
  }

  /** Only the IP's owner withdraws: the user record passed in must be
      the IP's owner and must name the signer; otherwise the owner
      constraints refuse, before any arithmetic. */
  lemma WithdrawOwnerOnly(c: Chain, signer: Pubkey, ipid: IpId, owner: Address)
    ensures WithdrawStep(c, signer, ipid, owner).Ok? ==>
      owner.UserPda? && c.ips[ipid].owner == owner && c.users[owner.user].useraddr == signer
    ensures ipid in c.cis && ipid in c.ips && IsUserRecord(c, owner) &&
            (c.ips[ipid].owner != owner || c.users[owner.user].useraddr != signer) ==>
      WithdrawStep(c, signer, ipid, owner) == Err(ConstraintRaw)
  {
  }

  /** A second withdraw straight after a successful one finds nothing
      left to draw: the first brings the withdrawal count up to the units
      sold toward the goal. */
  lemma WithdrawOnce(c: Chain, signer: Pubkey, ipid: IpId, owner: Address)
    requires WithdrawStep(c, signer, ipid, owner).Ok?
    ensures WithdrawStep(WithdrawStep(c, signer, ipid, owner).value, signer, ipid, owner) == Err(ContractHasNoLamports)
  {
  }

  /** A withdraw keeps the store sound. */
  lemma WithdrawSound(c: Chain, signer: Pubkey, ipid: IpId, owner: Address)
    requires Sound(c) && WithdrawStep(c, signer, ipid, owner).Ok?
    ensures Sound(WithdrawStep(c, signer, ipid, owner).value)
  {
    var ci := c.cis[ipid];
    var amount := Mul(Min(ci.currcount, ci.goalcount) - ci.withdrawalCount, ci.price);
    TransferDebits(c.lamports, CiPda(ipid), owner, amount);
    Drawn(c, ipid, Transfer(c.lamports, CiPda(ipid), owner, amount).value, c.tokens, CiPda(ipid));
  }

  /** On a sound store none of the unchecked `u64` operations of a
      withdraw aborts it: not the subtraction of the drawn count, not the
      product, not the lamport decrement on the campaign record. */
  lemma WithdrawNoOverflow(c: Chain, signer: Pubkey, ipid: IpId, owner: Address)
    requires Sound(c)
    ensures WithdrawStep(c, signer, ipid, owner) != Err(ArithmeticOverflow)
  {
    if ipid in c.cis {
      var ci := c.cis[ipid];
      CampaignAt(c, ipid);
      DrawSound(ci, c.cps[ipid], Escrow(ci, ipid, c.lamports, c.tokens));
    }
  }

  /** A successful withdraw brings the drawn count up to
      `min(currcount, goalcount)`, so it never exceeds the goal, and moves
      exactly the price of the units drawn from the campaign record to the
      owner record: what one loses the other gains. No other record or
      balance changes. */
  lemma WithdrawDraws(c: Chain, signer: Pubkey, ipid: IpId, owner: Address)
    requires Sound(c) && WithdrawStep(c, signer, ipid, owner).Ok?
    ensures var c' := WithdrawStep(c, signer, ipid, owner).value;
      var ci := c.cis[ipid];
      var amount := Mul(Min(ci.currcount, ci.goalcount) - ci.withdrawalCount, ci.price);
      && c'.cis == c.cis[ipid := ci.(withdrawalCount := Min(ci.currcount, ci.goalcount))]
      && c'.cis[ipid].withdrawalCount <= ci.goalcount
      && Balance(c'.lamports, owner) == Balance(c.lamports, owner) + amount
      && Balance(c'.lamports, CiPda(ipid)) + amount == Balance(c.lamports, CiPda(ipid))
      && (forall a :: a != owner && a != CiPda(ipid) ==> Balance(c'.lamports, a) == Balance(c.lamports, a))
      && c'.(cis := c.cis, lamports := c.lamports) == c
  {
  }

  /** What `bonus` owes a payer whose record holds `withdrawal`: nothing
      while the count is at most the goal, otherwise the share of the
      surplus less what the payer holds. The product and the subtraction
      are unchecked `u64` operations. */
  function Owed(ci: CIAccount, withdrawal: nat): (r: Result<nat>)
    ensures r.Err? ==> r.error == ArithmeticOverflow
    ensures r.Ok? && ci.currcount > ci.goalcount ==>
      withdrawal + r.value == Entitlement(ci.currcount, ci.goalcount, ci.price)
    ensures ci.currcount <= ci.goalcount ==> r == Ok(0)
  {
    if ci.currcount <= ci.goalcount then Ok(0)
    else if Mul(ci.currcount - ci.goalcount, ci.price) >= U64Limit then Err(ArithmeticOverflow)
    else
      var share := Div(Mul(ci.currcount - ci.goalcount, ci.price), ci.currcount);
      if share < withdrawal then Err(ArithmeticOverflow) else Ok(share - withdrawal)
  }

  /** On a sound campaign nothing in `Owed` overflows: it is exactly the
      share less what the payer holds. */
  lemma OwedNoOverflow(ci: CIAccount, withdrawal: nat)
    requires CountersSound(ci) && withdrawal <= Entitlement(ci.currcount, ci.goalcount, ci.price)
    ensures Owed(ci, withdrawal) == Ok(Entitlement(ci.currcount, ci.goalcount, ci.price) - withdrawal)
  {
    if ci.currcount > ci.goalcount {
      MulLe(ci.currcount - ci.goalcount, ci.currcount, ci.price);
    }
  }

  /** `bonus`: the signer tops up the payment record of the signer's user
      record in the campaign on `ipid` to the current share of the surplus,
      receiving the difference in that user record. */
  function BonusStep(c: Chain, signer: Pubkey, ipid: IpId): Result<Chain> {
    if ipid !in c.cis || UserPda(signer) !in PaymentsOf(c.cps, ipid) || signer !in c.users then Err(AccountNotInitialized)
    else
      var ps := PaymentsOf(c.cps, ipid);
      var cp := ps[UserPda(signer)];
      var owed := Owed(c.cis[ipid], cp.withdrawal);
      if owed.Err? then Err(owed.error)
      else if owed.value == 0 then Err(ContractHasNoLamports)
      else if !IsCompensative(c.cis[ipid]) then Err(WrongContractType)
      else
        var moved := Transfer(c.lamports, CiPda(ipid), UserPda(signer), owed.value);
        if moved.Err? then Err(ArithmeticOverflow)
        else
          Ok(c.(cps := c.cps[ipid := ps[UserPda(signer) := cp.(withdrawal := cp.withdrawal + owed.value)]],
                lamports := moved.value))
  }

  method Bonus(l: Ledger, signer: Pubkey, ipid: IpId) returns (r: Result<()>)
    requires l.Valid()
    modifies l
    ensures l.Valid()
    ensures Applied(BonusStep(old(l.chain), signer, ipid), r, old(l.chain), l.chain)
  {
    var c := l.chain;
    if ipid !in c.cis { return Err(AccountNotInitialized); }
    var ps := PaymentsOf(c.cps, ipid);
    if UserPda(signer) !in ps || signer !in c.users { return Err(AccountNotInitialized); }
    var cp := ps[UserPda(signer)];
    var withdrawable := Owed(c.cis[ipid], cp.withdrawal);
    if withdrawable.Err? { return Err(withdrawable.error); }
    if withdrawable.value == 0 { return Err(ContractHasNoLamports); }
    if !IsCompensative(c.cis[ipid]) { return Err(WrongContractType); }

    cp := cp.(withdrawal := cp.withdrawal + withdrawable.value);
    var moved := Transfer(c.lamports, CiPda(ipid), UserPda(signer), withdrawable.value);
    if moved.Err? { return Err(ArithmeticOverflow); }
    BonusSound(c, signer, ipid);
    l.chain := c.(cps := c.cps[ipid := ps[UserPda(signer) := cp]], lamports := moved.value);
    r := Ok(());
  }

  /** Only payers claim: a signer whose user record has no payment
      record in the campaign is refused. */
  lemma BonusPayersOnly(c: Chain, signer: Pubkey, ipid: IpId)
    ensures UserPda(signer) !in PaymentsOf(c.cps, ipid) ==> BonusStep(c, signer, ipid) == Err(AccountNotInitialized)
    ensures BonusStep(c, signer, ipid).Ok? ==> UserPda(signer) in PaymentsOf(c.cps, ipid) && signer in c.users
  {
  }

  /** A bonus keeps the store sound. */
  lemma BonusSound(c: Chain, signer: Pubkey, ipid: IpId)
    requires Sound(c) && BonusStep(c, signer, ipid).Ok?
    ensures Sound(BonusStep(c, signer, ipid).value)
  {
    var amount := Owed(c.cis[ipid], PaymentsOf(c.cps, ipid)[UserPda(signer)].withdrawal).value;
    TransferDebits(c.lamports, CiPda(ipid), UserPda(signer), amount);
    ToppedUp(c, ipid, UserPda(signer), Transfer(c.lamports, CiPda(ipid), UserPda(signer), amount).value, c.tokens, CiPda(ipid));
  }

  /** On a sound store none of the unchecked `u64` operations of a bonus
      aborts it: not the product, not the subtraction of what the payer
      holds (a payer never holds more than the current share), not the
      lamport decrement on the campaign record. */
  lemma BonusNoOverflow(c: Chain, signer: Pubkey, ipid: IpId)
    requires Sound(c)
    ensures BonusStep(c, signer, ipid) != Err(ArithmeticOverflow)
  {
    if ipid in c.cis && UserPda(signer) in PaymentsOf(c.cps, ipid) {
      var ci := c.cis[ipid];
      var ps := c.cps[ipid];
      CampaignAt(c, ipid);
      TopUpSound(ci, ps, UserPda(signer), Escrow(ci, ipid, c.lamports, c.tokens));
      OwedNoOverflow(ci, ps[UserPda(signer)].withdrawal);
    }
  }

  /** A successful bonus leaves the payer's record holding exactly the
      current share of the surplus, changes no campaign and no IP, and
      moves the difference from the campaign record to the payer's user
      record: what one loses the other gains. */
  lemma BonusTopsUpRecord(c: Chain, signer: Pubkey, ipid: IpId)
    requires Sound(c) && BonusStep(c, signer, ipid).Ok?
    ensures var c' := BonusStep(c, signer, ipid).value;
      var ci := c.cis[ipid];
      var e := Entitlement(ci.currcount, ci.goalcount, ci.price);
      var w := PaymentsOf(c.cps, ipid)[UserPda(signer)].withdrawal;
      && ci.currcount > ci.goalcount && w < e
      && c'.cps[ipid][UserPda(signer)].withdrawal == e
      && c'.cis == c.cis && c'.ips == c.ips && c'.tokens == c.tokens
      && Balance(c'.lamports, UserPda(signer)) == Balance(c.lamports, UserPda(signer)) + (e - w)
      && Balance(c'.lamports, CiPda(ipid)) + (e - w) == Balance(c.lamports, CiPda(ipid))
  {
  }

  /** After a bonus the payer holds the whole share: claiming again at
      once fails. */
  lemma BonusIdempotent(c: Chain, signer: Pubkey, ipid: IpId)
    requires BonusStep(c, signer, ipid).Ok?
    ensures BonusStep(BonusStep(c, signer, ipid).value, signer, ipid) == Err(ContractHasNoLamports)
  {
    var cp := c.cps[ipid][UserPda(signer)];
    var owed := Owed(c.cis[ipid], cp.withdrawal);
    assert Owed(c.cis[ipid], cp.withdrawal + owed.value) == Ok(0);
  }

  /** Twenty payers and a goal of five: a payer's claim leaves the payer's
      record holding `(20 - 5) * price / 20`, and a claim that finds
      nothing owed finds it holding exactly that already. */
  lemma TwentyPayersGoalFive(c: Chain, signer: Pubkey, ipid: IpId)
    requires Sound(c) && ipid in c.cis && UserPda(signer) in PaymentsOf(c.cps, ipid) && signer in c.users
    requires IsCompensative(c.cis[ipid]) && c.cis[ipid].currcount == 20 && c.cis[ipid].goalcount == 5
    ensures BonusStep(c, signer, ipid).Ok? ==>
      BonusStep(c, signer, ipid).value.cps[ipid][UserPda(signer)].withdrawal == 15 * c.cis[ipid].price / 20
    ensures BonusStep(c, signer, ipid) == Err(ContractHasNoLamports) ==>
      c.cps[ipid][UserPda(signer)].withdrawal == 15 * c.cis[ipid].price / 20
  {
    var ci := c.cis[ipid];
    CampaignAt(c, ipid);
    TopUpSound(ci, c.cps[ipid], UserPda(signer), Escrow(ci, ipid, c.lamports, c.tokens));
    OwedNoOverflow(ci, c.cps[ipid][UserPda(signer)].withdrawal);
    EntitlementValue(20, 5, ci.price);
  }
}
