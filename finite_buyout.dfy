/**
  The finite buyout (contracts/finite_buyout.rs): an author issues a
  contract for an IP number, with a price and a number of heads, at seeds
  made of the author's key and a number (the price, as written); each
  buyer names the author and that number, and pays the price once, in
  lamports from the buyer's wallet to the contract record, until the heads
  are counted. A buyer record at seeds ["fb-buyer", buyer, contract] marks
  each buyer.

  Nothing here checks the price or the number of heads: a contract issued
  with no heads refuses every buyer.
 */
module FiniteBuyout {
  import opened Records
  import opened Payout
  import opened Campaign
  import opened Store

  /** The buyer records of the contract at `key`: none before its issue. */
  function BuyersOf(c: Chain, key: FbKey): map<Pubkey, BuyerAccount> {
    if key in c.fbBuyers then c.fbBuyers[key] else map[]
  }

  /** Changing one contract, `k`, keeps the finite-buyout invariant when the
      new contract is sound with its new buyer records and balance, and no
      contract's balance went down. */
  lemma FiniteChanged(fbContracts: map<FbKey, FBContractAccount>, fbBuyers: map<FbKey, map<Pubkey, BuyerAccount>>,
                      lamports: map<Address, nat>, k: FbKey, contract': FBContractAccount,
                      buyers': map<Pubkey, BuyerAccount>, lamports': map<Address, nat>, from: Address)
    requires FinitesSound(fbContracts, fbBuyers, lamports)
    requires !from.FbContractPda? && Debits(lamports, lamports', from)
    requires FbSound(contract', k, buyers', Balance(lamports', FbContractPda(k.author, k.ipid)))
    ensures FinitesSound(fbContracts[k := contract'], fbBuyers[k := buyers'], lamports')
  {
    var fbContracts' := fbContracts[k := contract'];
    var fbBuyers' := fbBuyers[k := buyers'];
    forall j | j in fbContracts'
      ensures FiniteOk(fbContracts', fbBuyers', lamports', j)
    {
      if j != k {
        assert FiniteOk(fbContracts, fbBuyers, lamports, j);
      }
    }
  }

  /** `issue` as written: the contract records the author, the IP number,
      the price and the number of heads, but it sits at seeds
      ["fb-contract", signer, price]. The accounts declare
      `#[instruction(ipid: u64)]`, and Anchor decodes that list from the
      front of the handler's arguments, where `price` comes first. */
  function IssueStep(c: Chain, signer: Pubkey, price: U64, goalcount: U64, ipid: U64): Result<Chain> {
    var key := FbKey(signer, price);
    if key in c.fbContracts then Err(AccountAlreadyInUse)
    else
      Ok(c.(fbContracts := c.fbContracts[key := FBContractAccount(signer, ipid, price, goalcount, 0)],
            fbBuyers := c.fbBuyers[key := map[]]))
  }

  method Issue(l: Ledger, signer: Pubkey, price: U64, goalcount: U64, ipid: U64) returns (r: Result<()>)
    requires l.Valid()
    modifies l
    ensures l.Valid()
    ensures Applied(IssueStep(old(l.chain), signer, price, goalcount, ipid), r, old(l.chain), l.chain)
  {
    var c := l.chain;
    var key := FbKey(signer, price);
    if key in c.fbContracts { return Err(AccountAlreadyInUse); }
    var contract := FBContractAccount(0, 0, 0, 0, 0);
    contract := contract.(author := signer, ipid := ipid, price := price, goalcount := goalcount, headcount := 0);
    IssueSound(c, signer, price, goalcount, ipid);
    l.chain := c.(fbContracts := c.fbContracts[key := contract], fbBuyers := c.fbBuyers[key := map[]]);
    r := Ok(());
  }

  /** An issue keeps the store sound. */
  lemma IssueSound(c: Chain, signer: Pubkey, price: U64, goalcount: U64, ipid: U64)
    requires Sound(c) && IssueStep(c, signer, price, goalcount, ipid).Ok?
    ensures Sound(IssueStep(c, signer, price, goalcount, ipid).value)
  {
    var key := FbKey(signer, price);
    FiniteChanged(c.fbContracts, c.fbBuyers, c.lamports, key, FBContractAccount(signer, ipid, price, goalcount, 0),
                  map[], c.lamports, Wallet(signer));
  }

  /** An issue succeeds exactly when the signer has no contract at the
      seeds of that price yet, whatever the IP number and the number of
      heads; the contract it creates names the signer and the IP number,
      counts no heads and has no buyers, and nothing else in the store
      changes. */
  lemma IssueOpens(c: Chain, signer: Pubkey, price: U64, goalcount: U64, ipid: U64)
    ensures IssueStep(c, signer, price, goalcount, ipid).Ok? <==> FbKey(signer, price) !in c.fbContracts
    ensures var r := IssueStep(c, signer, price, goalcount, ipid);
      r.Ok? ==>
        && r.value.fbContracts == c.fbContracts[FbKey(signer, price) := FBContractAccount(signer, ipid, price, goalcount, 0)]
        && r.value.fbBuyers == c.fbBuyers[FbKey(signer, price) := map[]]
        && r.value.(fbContracts := c.fbContracts, fbBuyers := c.fbBuyers) == c
  {
  }

  /** A contract is issued once per author and price: a second issue at
      the same price fails, whatever its IP number and heads. */
  lemma IssueOnce(c: Chain, signer: Pubkey, price: U64, goalcount: U64, ipid: U64, goalcount': U64, ipid': U64)
    requires IssueStep(c, signer, price, goalcount, ipid).Ok?
    ensures IssueStep(IssueStep(c, signer, price, goalcount, ipid).value, signer, price, goalcount', ipid') == Err(AccountAlreadyInUse)
  {
  }

  /** As written, one author issues two contracts for the same IP number at
      two prices, and a buy under that IP number misses both unless a
      contract happens to sit at a price equal to it. */
  lemma IssueTwicePerIp(c: Chain, signer: Pubkey, price: U64, price': U64, goalcount: U64, ipid: U64, buyer: Pubkey)
    requires price != price' && price != ipid && price' != ipid
    requires FbKey(signer, price) !in c.fbContracts && FbKey(signer, price') !in c.fbContracts
    requires FbKey(signer, ipid) !in c.fbContracts
    ensures IssueStep(c, signer, price, goalcount, ipid).Ok?
    ensures var c1 := IssueStep(c, signer, price, goalcount, ipid).value;
      && IssueStep(c1, signer, price', goalcount, ipid).Ok?
      && var c2 := IssueStep(c1, signer, price', goalcount, ipid).value;
         && c2.fbContracts[FbKey(signer, price)].ipid == ipid
         && c2.fbContracts[FbKey(signer, price')].ipid == ipid
         && BuyStep(c2, buyer, signer, ipid) == Err(AccountNotInitialized)
  {
  }

  /** `issue` with the seeds it evidently intends: the contract sits at
      ["fb-contract", signer, ipid], where `buy(author, ipid)` looks for
      it. */
  function IssueByIpStep(c: Chain, signer: Pubkey, price: U64, goalcount: U64, ipid: U64): Result<Chain> {
    var key := FbKey(signer, ipid);
    if key in c.fbContracts then Err(AccountAlreadyInUse)
    else
      Ok(c.(fbContracts := c.fbContracts[key := FBContractAccount(signer, ipid, price, goalcount, 0)],
            fbBuyers := c.fbBuyers[key := map[]]))
  }

  method IssueByIp(l: Ledger, signer: Pubkey, price: U64, goalcount: U64, ipid: U64) returns (r: Result<()>)
    requires l.Valid()
    modifies l
    ensures l.Valid()
    ensures Applied(IssueByIpStep(old(l.chain), signer, price, goalcount, ipid), r, old(l.chain), l.chain)
  {
    var c := l.chain;
    var key := FbKey(signer, ipid);
    if key in c.fbContracts { return Err(AccountAlreadyInUse); }
    IssueByIpSound(c, signer, price, goalcount, ipid);
    l.chain := c.(fbContracts := c.fbContracts[key := FBContractAccount(signer, ipid, price, goalcount, 0)],
                  fbBuyers := c.fbBuyers[key := map[]]);
    r := Ok(());
  }

  /** The corrected issue keeps the store sound. */
  lemma IssueByIpSound(c: Chain, signer: Pubkey, price: U64, goalcount: U64, ipid: U64)
    requires Sound(c) && IssueByIpStep(c, signer, price, goalcount, ipid).Ok?
    ensures Sound(IssueByIpStep(c, signer, price, goalcount, ipid).value)
  {
    FiniteChanged(c.fbContracts, c.fbBuyers, c.lamports, FbKey(signer, ipid),
                  FBContractAccount(signer, ipid, price, goalcount, 0), map[], c.lamports, Wallet(signer));
  }

  /** With the intended seeds a contract is issued once per author and IP
      number, whatever the price; a first buyer under that IP number with
      the price in the wallet reaches it; and where price and IP number
      coincide the handler as written does the same. */
  lemma IssueByIpOnce(c: Chain, signer: Pubkey, price: U64, goalcount: U64, ipid: U64, price': U64, goalcount': U64, buyer: Pubkey)
    requires IssueByIpStep(c, signer, price, goalcount, ipid).Ok?
    ensures IssueByIpStep(IssueByIpStep(c, signer, price, goalcount, ipid).value, signer, price', goalcount', ipid)
            == Err(AccountAlreadyInUse)
    ensures 0 < goalcount && price <= Balance(c.lamports, Wallet(buyer)) ==>
      BuyStep(IssueByIpStep(c, signer, price, goalcount, ipid).value, buyer, signer, ipid).Ok?
    ensures price == ipid ==> IssueByIpStep(c, signer, price, goalcount, ipid) == IssueStep(c, signer, price, goalcount, ipid)
  {
  }

  /** `buy`: the signer pays the price of the contract of `author` on
      `ipid` and is counted as one more head. */
  function BuyStep(c: Chain, signer: Pubkey, author: Pubkey, ipid: U64): Result<Chain> {
    var key := FbKey(author, ipid);
    if key !in c.fbContracts then Err(AccountNotInitialized)
    else if signer in BuyersOf(c, key) then Err(AccountAlreadyInUse)
    else
      var contract := c.fbContracts[key];
      if Balance(c.lamports, Wallet(signer)) < contract.price then Err(LamportsNotEnough)
      else if contract.headcount >= contract.goalcount then Err(GoalAlreadyAchieved)
      else
        Ok(c.(fbContracts := c.fbContracts[key := contract.(headcount := contract.headcount + 1)],
              fbBuyers := c.fbBuyers[key := BuyersOf(c, key)[signer := BuyerAccount(signer)]],
              lamports := Transfer(c.lamports, Wallet(signer), FbContractPda(author, ipid), contract.price).value))
  }

  method Buy(l: Ledger, signer: Pubkey, author: Pubkey, ipid: U64) returns (r: Result<()>)
    requires l.Valid()
    modifies l
    ensures l.Valid()
    ensures Applied(BuyStep(old(l.chain), signer, author, ipid), r, old(l.chain), l.chain)
  {
    var c := l.chain;
    var key := FbKey(author, ipid);
    if key !in c.fbContracts { return Err(AccountNotInitialized); }
    var buyers := BuyersOf(c, key);
    if signer in buyers { return Err(AccountAlreadyInUse); }
    var contract := c.fbContracts[key];
    if Balance(c.lamports, Wallet(signer)) < contract.price { return Err(LamportsNotEnough); }
    if contract.headcount >= contract.goalcount { return Err(GoalAlreadyAchieved); }

    buyers := buyers[signer := BuyerAccount(signer)];
    contract := contract.(headcount := contract.headcount + 1);
    var moved := Transfer(c.lamports, Wallet(signer), FbContractPda(author, ipid), contract.price);
    BuySound(c, signer, author, ipid);
    l.chain := c.(fbContracts := c.fbContracts[key := contract], fbBuyers := c.fbBuyers[key := buyers], lamports := moved.value);
    r := Ok(());
  }

  /** A buy keeps the store sound: the contract gains a head and the price
      of it, and the wallet it takes the price from is no escrow. */
  lemma BuySound(c: Chain, signer: Pubkey, author: Pubkey, ipid: U64)
    requires Sound(c) && BuyStep(c, signer, author, ipid).Ok?
    ensures Sound(BuyStep(c, signer, author, ipid).value)
  {
    var key := FbKey(author, ipid);
    var contract := c.fbContracts[key];
    assert FiniteOk(c.fbContracts, c.fbBuyers, c.lamports, key);
    var lamports' := Transfer(c.lamports, Wallet(signer), FbContractPda(author, ipid), contract.price).value;
    TransferDebits(c.lamports, Wallet(signer), FbContractPda(author, ipid), contract.price);
    FiniteChanged(c.fbContracts, c.fbBuyers, c.lamports, key, contract.(headcount := contract.headcount + 1),
                  BuyersOf(c, key)[signer := BuyerAccount(signer)], lamports', Wallet(signer));
    CampaignsKept(c.ips, c.cis, c.cps, c.lamports, c.tokens, lamports', Wallet(signer));
  }

  /** A buy succeeds exactly when the contract exists, the signer has not
      bought it yet, the signer's wallet holds the price, and fewer heads
      than the goal are counted. */
  lemma BuyAccepts(c: Chain, signer: Pubkey, author: Pubkey, ipid: U64)
    ensures BuyStep(c, signer, author, ipid).Ok? <==>
      var key := FbKey(author, ipid);
      && key in c.fbContracts && signer !in BuyersOf(c, key)
      && Balance(c.lamports, Wallet(signer)) >= c.fbContracts[key].price
      && c.fbContracts[key].headcount < c.fbContracts[key].goalcount
  {
  }

  /** What a successful buy does: one more head and nothing else in the
      contract, a buyer record naming the signer, the price moved from the
      signer's wallet to the contract, and no other record or balance
      touched. */
  lemma BuyCounts(c: Chain, signer: Pubkey, author: Pubkey, ipid: U64)
    requires BuyStep(c, signer, author, ipid).Ok?
    ensures var c' := BuyStep(c, signer, author, ipid).value;
      var key := FbKey(author, ipid);
      var contract := c.fbContracts[key];
      && c'.fbContracts == c.fbContracts[key := contract.(headcount := contract.headcount + 1)]
      && BuyersOf(c', key) == BuyersOf(c, key)[signer := BuyerAccount(signer)]
      && Balance(c'.lamports, Wallet(signer)) + contract.price == Balance(c.lamports, Wallet(signer))
      && Balance(c'.lamports, FbContractPda(author, ipid)) == Balance(c.lamports, FbContractPda(author, ipid)) + contract.price
      && (forall a :: a != Wallet(signer) && a != FbContractPda(author, ipid) ==> Balance(c'.lamports, a) == Balance(c.lamports, a))
      && c'.(fbContracts := c.fbContracts, fbBuyers := c.fbBuyers, lamports := c.lamports) == c
  {
  }

  /** Each buyer is counted once: buying the same contract again fails. */
  lemma BuyOnce(c: Chain, signer: Pubkey, author: Pubkey, ipid: U64)
    requires BuyStep(c, signer, author, ipid).Ok?
    ensures BuyStep(BuyStep(c, signer, author, ipid).value, signer, author, ipid) == Err(AccountAlreadyInUse)
  {
  }

  /** A contract issued with no heads refuses every buyer who reaches its
      seeds. */
  lemma NoHeadsNoBuyers(c: Chain, signer: Pubkey, price: U64, ipid: U64, buyer: Pubkey)
    requires IssueStep(c, signer, price, 0, ipid).Ok?
    ensures BuyStep(IssueStep(c, signer, price, 0, ipid).value, buyer, signer, price).Err?
  {
  }

  /** What the store invariant says of a contract: it never counts more
      heads than its goal, it has one buyer record per head, and it holds
      the price of every head. */
  lemma ContractAt(c: Chain, author: Pubkey, ipid: U64)
    requires Sound(c) && FbKey(author, ipid) in c.fbContracts
    ensures var contract := c.fbContracts[FbKey(author, ipid)];
      && contract.headcount <= contract.goalcount
      && |BuyersOf(c, FbKey(author, ipid))| == contract.headcount
      && Balance(c.lamports, FbContractPda(author, ipid)) >= Mul(contract.headcount, contract.price)
  {
    assert FiniteOk(c.fbContracts, c.fbBuyers, c.lamports, FbKey(author, ipid));
  }
}
