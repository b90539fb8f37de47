/**
  Every handler of the model as one instruction set, run against one
  store: the ownership order of IPs holds across every instruction, and
  the store invariant across every instruction whose pay keeps within the
  `u64` bound (`Fits`), whichever handler it reaches. Beside the handlers as
  written, three instructions run the corrected forms of
  `delete_ip_account`, of the goal/max `publish` and of the finite `issue`
  (`Registry.DeleteOwnIpStep`, `GoalmaxBuyout.PublishOwnStep`,
  `FiniteBuyout.IssueByIpStep`).
 */
module Program {
  import opened Records
  import opened Store
  import GoalmaxBuyout
  import CompensativeBuyout
  import FiniteBuyout
  import Registry
  import EarlyRegistry

  /** One instruction with its arguments; the signer is given beside it. */
  datatype Instruction =
    | CreateUser
    | CreateUserNamed(username: string)
    | DeleteUser
    | CreateIp(ipid: IpId, title: string)
    | CreateIpForUserRecord(ipid: IpId, title: string)
    | DeleteIp(ipid: IpId)
    | DeleteOwnIp(ipid: IpId)
    | GoalmaxPublish(ipid: IpId, tokenMint: Pubkey, price: U64, goalcount: U64, maxcount: U64)
    | GoalmaxPublishOwn(ipid: IpId, tokenMint: Pubkey, price: U64, goalcount: U64, maxcount: U64)
    | GoalmaxPay(ipid: IpId)
    | GoalmaxWithdraw(ipid: IpId, dest: Address)
    | GoalmaxBonus(ipid: IpId, dest: Address)
    | CompensativePublish(ipid: IpId, owner: Address, price: U64, goalcount: U64, maxcount: U64)
    | CompensativePay(ipid: IpId)
    | CompensativeWithdraw(ipid: IpId, owner: Address)
    | CompensativeBonus(ipid: IpId)
    | FiniteIssue(price: U64, goalcount: U64, fbIpid: U64)
    | FiniteIssueByIp(price: U64, goalcount: U64, fbIpid: U64)
    | FiniteBuy(author: Pubkey, fbIpid: U64)

  /** The handler `ins` reaches, applied to `c` on behalf of `signer`. */
  function Execute(c: Chain, signer: Pubkey, ins: Instruction): Result<Chain> {
    match ins
    case CreateUser => Registry.CreateUserStep(c, signer)
    case CreateUserNamed(username) => EarlyRegistry.CreateUserStep(c, signer, username)
    case DeleteUser => Registry.DeleteUserStep(c, signer)
    case CreateIp(ipid, title) => Registry.CreateIpStep(c, signer, ipid, title)
    case CreateIpForUserRecord(ipid, title) => EarlyRegistry.CreateIpStep(c, signer, ipid, title)
    case DeleteIp(ipid) => Registry.DeleteIpStep(c, signer, ipid)
    case DeleteOwnIp(ipid) => Registry.DeleteOwnIpStep(c, signer, ipid)
    case GoalmaxPublish(ipid, tokenMint, price, goalcount, maxcount) =>
      GoalmaxBuyout.PublishStep(c, signer, ipid, tokenMint, price, goalcount, maxcount)
    case GoalmaxPublishOwn(ipid, tokenMint, price, goalcount, maxcount) =>
      GoalmaxBuyout.PublishOwnStep(c, signer, ipid, tokenMint, price, goalcount, maxcount)
    case GoalmaxPay(ipid) => GoalmaxBuyout.PayStep(c, signer, ipid)
    case GoalmaxWithdraw(ipid, dest) => GoalmaxBuyout.WithdrawStep(c, signer, ipid, dest)
    case GoalmaxBonus(ipid, dest) => GoalmaxBuyout.BonusStep(c, signer, ipid, dest)
    case CompensativePublish(ipid, owner, price, goalcount, maxcount) =>
      CompensativeBuyout.PublishStep(c, signer, ipid, owner, price, goalcount, maxcount)
    case CompensativePay(ipid) => CompensativeBuyout.PayStep(c, signer, ipid)
    case CompensativeWithdraw(ipid, owner) => CompensativeBuyout.WithdrawStep(c, signer, ipid, owner)
    case CompensativeBonus(ipid) => CompensativeBuyout.BonusStep(c, signer, ipid)
    case FiniteIssue(price, goalcount, fbIpid) => FiniteBuyout.IssueStep(c, signer, price, goalcount, fbIpid)
    case FiniteIssueByIp(price, goalcount, fbIpid) => FiniteBuyout.IssueByIpStep(c, signer, price, goalcount, fbIpid)
    case FiniteBuy(author, fbIpid) => FiniteBuyout.BuyStep(c, signer, author, fbIpid)
  }

  /** The `u64` bound the model assumes of an instruction: a pay keeps the
      price of every unit within a `u64`. */
  predicate Fits(c: Chain, ins: Instruction) {
    match ins
    case GoalmaxPay(ipid) => PayFits(c, ipid)
    case CompensativePay(ipid) => PayFits(c, ipid)
    case _ => true
  }

  /** Every instruction that succeeds within the `u64` bound on pays
      keeps the store sound. */
  lemma ExecuteSound(c: Chain, signer: Pubkey, ins: Instruction)
    requires Sound(c) && Fits(c, ins) && Execute(c, signer, ins).Ok?
    ensures Sound(Execute(c, signer, ins).value)
  {
    match ins
    case CreateUser =>
    case CreateUserNamed(username) =>
    case DeleteUser => Registry.DeleteUserSound(c, signer);
    case CreateIp(ipid, title) => Registry.CreateIpSound(c, signer, ipid, title);
    case CreateIpForUserRecord(ipid, title) => EarlyRegistry.CreateIpSound(c, signer, ipid, title);
    case DeleteIp(ipid) => Registry.DeleteIpSound(c, signer, ipid);
    case DeleteOwnIp(ipid) => Registry.DeleteOwnIpSound(c, signer, ipid);
    case GoalmaxPublish(ipid, tokenMint, price, goalcount, maxcount) =>
      GoalmaxBuyout.PublishSound(c, signer, ipid, tokenMint, price, goalcount, maxcount);
    case GoalmaxPublishOwn(ipid, tokenMint, price, goalcount, maxcount) =>
      GoalmaxBuyout.PublishOwnSound(c, signer, ipid, tokenMint, price, goalcount, maxcount);
    case GoalmaxPay(ipid) => GoalmaxBuyout.PaySound(c, signer, ipid);
    case GoalmaxWithdraw(ipid, dest) => GoalmaxBuyout.WithdrawSound(c, signer, ipid, dest);
    case GoalmaxBonus(ipid, dest) => GoalmaxBuyout.BonusSound(c, signer, ipid, dest);
    case CompensativePublish(ipid, owner, price, goalcount, maxcount) =>
      CompensativeBuyout.PublishSound(c, signer, ipid, owner, price, goalcount, maxcount);
    case CompensativePay(ipid) => CompensativeBuyout.PaySound(c, signer, ipid);
    case CompensativeWithdraw(ipid, owner) => CompensativeBuyout.WithdrawSound(c, signer, ipid, owner);
    case CompensativeBonus(ipid) => CompensativeBuyout.BonusSound(c, signer, ipid);
    case FiniteIssue(price, goalcount, fbIpid) => FiniteBuyout.IssueSound(c, signer, price, goalcount, fbIpid);
    case FiniteIssueByIp(price, goalcount, fbIpid) => FiniteBuyout.IssueByIpSound(c, signer, price, goalcount, fbIpid);
    case FiniteBuy(author, fbIpid) => FiniteBuyout.BuySound(c, signer, author, fbIpid);
  }

  /** No instruction moves an IP back in the Private, Published, Public
      order: an IP is only ever published from Private, made Public from
      Published, or deleted while Private. */
  lemma ExecuteNoRegress(c: Chain, signer: Pubkey, ins: Instruction)
    requires Execute(c, signer, ins).Ok?
    ensures IpsAdvance(c.ips, Execute(c, signer, ins).value.ips)
    ensures NoRegress(c.ips, Execute(c, signer, ins).value.ips)
  {
    if GoalmaxInstruction(ins) {
      GoalmaxNoRegress(c, signer, ins);
    } else if CompensativeInstruction(ins) {
      CompensativeNoRegress(c, signer, ins);
    } else {
      OthersNoRegress(c, signer, ins);
    }
  }

  predicate GoalmaxInstruction(ins: Instruction) {
    ins.GoalmaxPublish? || ins.GoalmaxPublishOwn? || ins.GoalmaxPay? || ins.GoalmaxWithdraw? || ins.GoalmaxBonus?
  }

  predicate CompensativeInstruction(ins: Instruction) {
    ins.CompensativePublish? || ins.CompensativePay? || ins.CompensativeWithdraw? || ins.CompensativeBonus?
  }

  lemma GoalmaxNoRegress(c: Chain, signer: Pubkey, ins: Instruction)
    requires GoalmaxInstruction(ins) && Execute(c, signer, ins).Ok?
    ensures IpsAdvance(c.ips, Execute(c, signer, ins).value.ips)
  {
  }

  lemma CompensativeNoRegress(c: Chain, signer: Pubkey, ins: Instruction)
    requires CompensativeInstruction(ins) && Execute(c, signer, ins).Ok?
    ensures IpsAdvance(c.ips, Execute(c, signer, ins).value.ips)
  {
  }

  lemma OthersNoRegress(c: Chain, signer: Pubkey, ins: Instruction)
    requires !GoalmaxInstruction(ins) && !CompensativeInstruction(ins) && Execute(c, signer, ins).Ok?
    ensures IpsAdvance(c.ips, Execute(c, signer, ins).value.ips)
  {
  }

  /** The instructions run one after another on a sound store, each as a
      transaction: a failing one leaves the store as it was. */
  function Run(c: Chain, txs: seq<(Pubkey, Instruction)>): Chain
    decreases |txs|
  {
    if txs == [] then c
    else
      var next := Execute(c, txs[0].0, txs[0].1);
      Run(if next.Ok? then next.value else c, txs[1..])
  }

  /** Every pay in the run keeps within the `u64` bound at the store it
      meets. */
  ghost predicate RunFits(c: Chain, txs: seq<(Pubkey, Instruction)>)
    decreases |txs|
  {
    txs == [] ||
      (Fits(c, txs[0].1) &&
       var next := Execute(c, txs[0].0, txs[0].1);
       RunFits(if next.Ok? then next.value else c, txs[1..]))
  }

  /** A run of instructions from a sound store ends in a sound store. */
  lemma {:induction false} RunSound(c: Chain, txs: seq<(Pubkey, Instruction)>)
    requires Sound(c) && RunFits(c, txs)
    ensures Sound(Run(c, txs))
    decreases |txs|
  {
    if txs != [] {
      var next := Execute(c, txs[0].0, txs[0].1);
      if next.Ok? {
        ExecuteSound(c, txs[0].0, txs[0].1);
      }
      RunSound(if next.Ok? then next.value else c, txs[1..]);
    }
  }

  /** The ledger running one instruction: it keeps its invariant and
      applies the instruction as a transaction. */
  method Step(l: Ledger, signer: Pubkey, ins: Instruction) returns (r: Result<()>)
    requires l.Valid() && Fits(l.chain, ins)
    modifies l
    ensures l.Valid()
    ensures Applied(Execute(old(l.chain), signer, ins), r, old(l.chain), l.chain)
  {
    var next := Execute(l.chain, signer, ins);
    if next.Err? { return Err(next.error); }
    ExecuteSound(l.chain, signer, ins);
    l.chain := next.value;
    r := Ok(());
  }
}
