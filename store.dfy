/**
  The program's account store: every record the instructions read or create,
  keyed by the seeds of the address it lives at, and the lamport and token
  balances. `Ledger.Valid()` is the invariant every instruction keeps: each
  campaign has its IP and its group of payment records, each campaign's IP
  is Published (or Public once a goal/max campaign is full), each campaign's
  escrow covers what its owner and its payers may still draw, and each
  finite-buyout contract holds the price of every head it counts.
 */
module Store {
  import opened Records
  import opened Payout
  import opened Claims
  import opened Campaign

  /** The ownership of the IP a campaign runs on: Public once a goal/max
      campaign has reached its cap, Published otherwise. */
  function CampaignOwnership(ci: CIAccount): nat {
    if !IsCompensative(ci) && ci.currcount == ci.maxcount then IpOwnershipPublic else IpOwnershipPublished
  }

  /** Where a campaign's escrow is held: tokens in the campaign's token
      account for the goal/max buyout, lamports on the campaign record itself
      for the compensative buyout. */
  function Escrow(ci: CIAccount, id: IpId, lamports: map<Address, nat>, tokens: map<Address, nat>): nat {
    if IsCompensative(ci) then Balance(lamports, CiPda(id)) else Balance(tokens, CiVault(id))
  }


  /** The payment records of campaign `id`: none before its first payer. */
  function PaymentsOf(cps: map<IpId, map<Address, CPAccount>>, id: IpId): map<Address, CPAccount> {
    if id in cps then cps[id] else map[]
  }

  /** The invariant of one finite-buyout contract: it sits at seeds of its
      author, one buyer record per head, each naming the buyer of its seeds, never
      more heads than the goal, and the contract holds the price of every
      head. `buyers` holds the contract's buyer records by buyer. */
  predicate FbSound(c: FBContractAccount, key: FbKey, buyers: map<Pubkey, BuyerAccount>, escrow: nat) {
    && c.author == key.author
    && c.headcount <= c.goalcount
    && |buyers| == c.headcount
    && (forall b :: b in buyers ==> buyers[b].buyer == b)
    && escrow >= Mul(c.headcount, c.price)
  }

  /** No IP that is still registered has gone back in the
      Private, Published, Public order. */
  ghost predicate NoRegress(before: map<IpId, IPAccount>, after: map<IpId, IPAccount>) {
    forall id :: id in before && id in after ==> before[id].ownership <= after[id].ownership
  }

  /** The ownership moves an instruction may make: none, Private to
      Published, or Published to Public. */
  predicate OwnershipMove(before: nat, after: nat) {
    || before == after
    || (before == IpOwnershipPrivate && after == IpOwnershipPublished)
    || (before == IpOwnershipPublished && after == IpOwnershipPublic)
  }

  /** Every IP still registered made one of those moves, and every IP that
      went away was Private. */
  ghost predicate IpsAdvance(before: map<IpId, IPAccount>, after: map<IpId, IPAccount>) {
    && (forall id :: id in before && id in after ==> OwnershipMove(before[id].ownership, after[id].ownership))
    && (forall id :: id in before && id !in after ==> before[id].ownership == IpOwnershipPrivate)
  }

  /** Campaign `id` as the store invariant wants it: it has an IP and a
      group of payment records, the IP carries the ownership the campaign
      implies, and the campaign is sound with its escrow. */
  ghost predicate CampaignOk(ips: map<IpId, IPAccount>, cis: map<IpId, CIAccount>,
                             cps: map<IpId, map<Address, CPAccount>>,
                             lamports: map<Address, nat>, tokens: map<Address, nat>, id: IpId) {
    && id in cis && id in ips && id in cps
    && ips[id].ownership == CampaignOwnership(cis[id])
    && CampaignSound(cis[id], cps[id], Escrow(cis[id], id, lamports, tokens))
  }

  /** The campaign half of the store invariant: every campaign is as
      `CampaignOk` wants it. */
  ghost predicate CampaignsSound(ips: map<IpId, IPAccount>, cis: map<IpId, CIAccount>,
                                 cps: map<IpId, map<Address, CPAccount>>,
                                 lamports: map<Address, nat>, tokens: map<Address, nat>) {
    forall id {:trigger CampaignOk(ips, cis, cps, lamports, tokens, id)} ::
      id in cis ==> CampaignOk(ips, cis, cps, lamports, tokens, id)
  }

  /** Contract `k` as the store invariant wants it: it has a group of buyer
      records and is sound with the lamports at its address. */
  ghost predicate FiniteOk(fbContracts: map<FbKey, FBContractAccount>, fbBuyers: map<FbKey, map<Pubkey, BuyerAccount>>,
                           lamports: map<Address, nat>, k: FbKey) {
    && k in fbContracts && k in fbBuyers
    && FbSound(fbContracts[k], k, fbBuyers[k], Balance(lamports, FbContractPda(k.author, k.ipid)))
  }

  /** The finite-buyout half of the store invariant: every contract is as
      `FiniteOk` wants it. */
  ghost predicate FinitesSound(fbContracts: map<FbKey, FBContractAccount>, fbBuyers: map<FbKey, map<Pubkey, BuyerAccount>>,
                               lamports: map<Address, nat>) {
    forall k {:trigger FiniteOk(fbContracts, fbBuyers, lamports, k)} ::
      k in fbContracts ==> FiniteOk(fbContracts, fbBuyers, lamports, k)
  }

  /** No balance but the one at `from` went down from `m` to `m'`. */
  ghost predicate Debits(m: map<Address, nat>, m': map<Address, nat>, from: Address) {
    forall a :: a != from ==> Balance(m, a) <= Balance(m', a)
  }

  /** A transfer, in the form the store invariant's proofs use. */
  lemma TransferDebits(m: map<Address, nat>, from: Address, to: Address, amount: nat)
    requires Transfer(m, from, to, amount).Ok?
    ensures Debits(m, Transfer(m, from, to, amount).value, from)
  {
  }

  /** An address an instruction on campaign `id` may take funds from: a
      wallet or a user record, or that campaign's own escrow; never another
      campaign's escrow or a finite-buyout contract. */
  predicate MayBeDebited(a: Address, id: IpId) {
    a.Wallet? || a.UserPda? || a == CiPda(id) || a == CiVault(id)
  }

  /** Changing one campaign, `id`, keeps the campaign invariant when the new
      record is sound with its new payment records and escrow, its IP carries
      the ownership the record implies, and the only balances that went down
      are ones the instruction may take funds from. */
  lemma CampaignChanged(ips: map<IpId, IPAccount>, cis: map<IpId, CIAccount>, cps: map<IpId, map<Address, CPAccount>>,
                        lamports: map<Address, nat>, tokens: map<Address, nat>,
                        id: IpId, ips': map<IpId, IPAccount>, ci': CIAccount, cps': map<IpId, map<Address, CPAccount>>,
                        lamports': map<Address, nat>, tokens': map<Address, nat>, la: Address, ta: Address)
    requires CampaignsSound(ips, cis, cps, lamports, tokens)
    requires forall x :: x in ips && x != id ==> x in ips' && ips'[x] == ips[x]
    requires forall x :: x in cps && x != id ==> x in cps' && cps'[x] == cps[x]
    requires id in ips' && ips'[id].ownership == CampaignOwnership(ci') && id in cps'
    requires MayBeDebited(la, id) && Debits(lamports, lamports', la)
    requires MayBeDebited(ta, id) && Debits(tokens, tokens', ta)
    requires CampaignSound(ci', cps'[id], Escrow(ci', id, lamports', tokens'))
    ensures CampaignsSound(ips', cis[id := ci'], cps', lamports', tokens')
  {
    var cis' := cis[id := ci'];
    forall x | x in cis'
      ensures CampaignOk(ips', cis', cps', lamports', tokens', x)
    {
      if x != id {
        assert CampaignOk(ips, cis, cps, lamports, tokens, x);
        assert la != CiPda(x) && ta != CiVault(x);
        EscrowGrows(cis[x], cps[x], Escrow(cis[x], x, lamports, tokens), Escrow(cis[x], x, lamports', tokens'));
      }
    }
  }

  /** The finite-buyout invariant survives balance changes that take
      nothing from a contract. */
  lemma FinitesKept(fbContracts: map<FbKey, FBContractAccount>, fbBuyers: map<FbKey, map<Pubkey, BuyerAccount>>,
                    lamports: map<Address, nat>, lamports': map<Address, nat>, from: Address)
    requires FinitesSound(fbContracts, fbBuyers, lamports)
    requires !from.FbContractPda? && Debits(lamports, lamports', from)
    ensures FinitesSound(fbContracts, fbBuyers, lamports')
  {
    forall k | k in fbContracts
      ensures FiniteOk(fbContracts, fbBuyers, lamports', k)
    {
      assert FiniteOk(fbContracts, fbBuyers, lamports, k);
    }
  }

  /** The campaign invariant survives balance changes that take nothing
      from an escrow. */
  lemma CampaignsKept(ips: map<IpId, IPAccount>, cis: map<IpId, CIAccount>, cps: map<IpId, map<Address, CPAccount>>,
                      lamports: map<Address, nat>, tokens: map<Address, nat>, lamports': map<Address, nat>, from: Address)
    requires CampaignsSound(ips, cis, cps, lamports, tokens)
    requires (from.Wallet? || from.UserPda? || from.FbContractPda?) && Debits(lamports, lamports', from)
    ensures CampaignsSound(ips, cis, cps, lamports', tokens)
  {
    forall x | x in cis
      ensures CampaignOk(ips, cis, cps, lamports', tokens, x)
    {
      assert CampaignOk(ips, cis, cps, lamports, tokens, x);
      EscrowGrows(cis[x], cps[x], Escrow(cis[x], x, lamports, tokens), Escrow(cis[x], x, lamports', tokens));
    }
  }

  /** Every record the program's instructions read or write, keyed by the
      seeds of the address it lives at, and the lamport and token balances
      (an address never credited holds nothing). */
  datatype Chain = Chain(
    users: map<Pubkey, UserAccount>,                    // seeds ["user", signer]
    ips: map<IpId, IPAccount>,                          // seeds ["ip", ipid]
    cis: map<IpId, CIAccount>,                          // seeds ["ci", ipid]
    cps: map<IpId, map<Address, CPAccount>>,            // seeds ["cp", payer, ci], grouped by campaign
    credits: set<CpKey>,                                // seeds ["cc", user, ci]; the record has no fields
    fbContracts: map<FbKey, FBContractAccount>,         // seeds ["fb-contract", author, n]
    fbBuyers: map<FbKey, map<Pubkey, BuyerAccount>>,    // seeds ["fb-buyer", buyer, contract], grouped by contract
    lamports: map<Address, nat>,
    tokens: map<Address, nat>)

  /** The store invariant every instruction keeps. */
  ghost predicate Sound(c: Chain) {
    && CampaignsSound(c.ips, c.cis, c.cps, c.lamports, c.tokens)
    && FinitesSound(c.fbContracts, c.fbBuyers, c.lamports)
  }

  /** The u64 bound the model assumes of a pay: the price of every unit
      paid so far and of the new one fits in a `u64`. */
  predicate PayFits(c: Chain, ipid: IpId) {
    ipid in c.cis ==> Mul(c.cis[ipid].currcount + 1, c.cis[ipid].price) < U64Limit
  }

  /** A store holding no records. */
  function Empty(lamports: map<Address, nat>, tokens: map<Address, nat>): Chain {
    Chain(map[], map[], map[], map[], {}, map[], map[], lamports, tokens)
  }

  /** What the store invariant says of one campaign. */
  lemma CampaignAt(c: Chain, id: IpId)
    requires Sound(c) && id in c.cis
    ensures id in c.ips && id in c.cps
    ensures c.ips[id].ownership == CampaignOwnership(c.cis[id])
    ensures CampaignSound(c.cis[id], c.cps[id], Escrow(c.cis[id], id, c.lamports, c.tokens))
  {
    assert CampaignOk(c.ips, c.cis, c.cps, c.lamports, c.tokens, id);
  }

  /** Opening a campaign on an IP: the new campaign starts with no payment
      records, and its IP becomes Published. */
  lemma Opened(c: Chain, id: IpId, ip': IPAccount, ci: CIAccount)
    requires Sound(c)
    requires ci.price > 0 && ci.goalcount > 0 && ci.currcount == 0 && ci.withdrawalCount == 0
    requires if IsCompensative(ci) then ci.maxcount == 0 else ci.goalcount <= ci.maxcount
    requires ip'.ownership == IpOwnershipPublished
    ensures Sound(c.(ips := c.ips[id := ip'], cis := c.cis[id := ci], cps := c.cps[id := map[]]))
  {
    OpenedCampaigns(c.ips, c.cis, c.cps, c.lamports, c.tokens, id, ip', ci);
  }

  /** `Opened` on the campaign half of the invariant. */
  lemma OpenedCampaigns(ips: map<IpId, IPAccount>, cis: map<IpId, CIAccount>, cps: map<IpId, map<Address, CPAccount>>,
                        lamports: map<Address, nat>, tokens: map<Address, nat>, id: IpId, ip': IPAccount, ci: CIAccount)
    requires CampaignsSound(ips, cis, cps, lamports, tokens)
    requires ci.price > 0 && ci.goalcount > 0 && ci.currcount == 0 && ci.withdrawalCount == 0
    requires if IsCompensative(ci) then ci.maxcount == 0 else ci.goalcount <= ci.maxcount
    requires ip'.ownership == IpOwnershipPublished
    ensures CampaignsSound(ips[id := ip'], cis[id := ci], cps[id := map[]], lamports, tokens)
  {
    FreshSound(ci, Escrow(ci, id, lamports, tokens));
    CampaignChanged(ips, cis, cps, lamports, tokens, id, ips[id := ip'], ci, cps[id := map[]],
                    lamports, tokens, CiPda(id), CiPda(id));
  }

  /** Payer `a` joining campaign `id` with funds from wallet `from`: the
      escrow grows by the price less the share the new record holds, and
      the IP takes the ownership the new count implies. */
  lemma Joined(c: Chain, id: IpId, ip': IPAccount, a: Address, v: CPAccount,
               lamports': map<Address, nat>, tokens': map<Address, nat>, from: Address)
    requires Sound(c) && id in c.cis && a !in PaymentsOf(c.cps, id)
    requires IsCompensative(c.cis[id]) || c.cis[id].currcount < c.cis[id].maxcount
    requires Mul(c.cis[id].currcount + 1, c.cis[id].price) < U64Limit
    requires v.withdrawal == Entitlement(c.cis[id].currcount + 1, c.cis[id].goalcount, c.cis[id].price)
    requires from.Wallet? && Debits(c.lamports, lamports', from) && Debits(c.tokens, tokens', from)
    requires Escrow(c.cis[id], id, lamports', tokens') == Escrow(c.cis[id], id, c.lamports, c.tokens) + (c.cis[id].price - v.withdrawal)
    requires ip'.ownership == CampaignOwnership(c.cis[id].(currcount := c.cis[id].currcount + 1))
    ensures Sound(c.(ips := c.ips[id := ip'], cis := c.cis[id := c.cis[id].(currcount := c.cis[id].currcount + 1)],
                     cps := c.cps[id := PaymentsOf(c.cps, id)[a := v]], lamports := lamports', tokens := tokens'))
  {
    JoinedCampaigns(c.ips, c.cis, c.cps, c.lamports, c.tokens, id, ip', a, v, lamports', tokens', from);
    FinitesKept(c.fbContracts, c.fbBuyers, c.lamports, lamports', from);
  }

  /** `Joined` on the campaign half of the invariant. */
  lemma JoinedCampaigns(ips: map<IpId, IPAccount>, cis: map<IpId, CIAccount>, cps: map<IpId, map<Address, CPAccount>>,
                        lamports: map<Address, nat>, tokens: map<Address, nat>, id: IpId, ip': IPAccount, a: Address, v: CPAccount,
                        lamports': map<Address, nat>, tokens': map<Address, nat>, from: Address)
    requires CampaignsSound(ips, cis, cps, lamports, tokens) && id in cis && a !in PaymentsOf(cps, id)
    requires IsCompensative(cis[id]) || cis[id].currcount < cis[id].maxcount
    requires Mul(cis[id].currcount + 1, cis[id].price) < U64Limit
    requires v.withdrawal == Entitlement(cis[id].currcount + 1, cis[id].goalcount, cis[id].price)
    requires from.Wallet? && Debits(lamports, lamports', from) && Debits(tokens, tokens', from)
    requires Escrow(cis[id], id, lamports', tokens') == Escrow(cis[id], id, lamports, tokens) + (cis[id].price - v.withdrawal)
    requires ip'.ownership == CampaignOwnership(cis[id].(currcount := cis[id].currcount + 1))
    ensures CampaignsSound(ips[id := ip'], cis[id := cis[id].(currcount := cis[id].currcount + 1)],
                           cps[id := PaymentsOf(cps, id)[a := v]], lamports', tokens')
  {
    var ci := cis[id];
    assert CampaignOk(ips, cis, cps, lamports, tokens, id);
    var escrow := Escrow(ci, id, lamports, tokens);
    EntitlementBelowPrice(ci.currcount + 1, ci.goalcount, ci.price);
    JoinSound(ci, cps[id], a, v, escrow, ci.price - v.withdrawal);
    CampaignChanged(ips, cis, cps, lamports, tokens, id, ips[id := ip'], ci.(currcount := ci.currcount + 1),
                    cps[id := cps[id][a := v]], lamports', tokens', from, from);
  }

  /** The owner of campaign `id` drawing every unit paid up to the goal and
      not yet drawn: when no more than their price leaves the escrow, and
      nothing leaves any other, the store stays sound. */
  lemma Drawn(c: Chain, id: IpId, lamports': map<Address, nat>, tokens': map<Address, nat>, from: Address)
    requires Sound(c) && id in c.cis
    requires MayBeDebited(from, id) && Debits(c.lamports, lamports', from) && Debits(c.tokens, tokens', from)
    requires var ci := c.cis[id];
      ci.withdrawalCount <= Min(ci.currcount, ci.goalcount)
      && Escrow(ci, id, lamports', tokens') + Mul(Min(ci.currcount, ci.goalcount) - ci.withdrawalCount, ci.price)
           >= Escrow(ci, id, c.lamports, c.tokens)
    ensures Sound(c.(cis := c.cis[id := c.cis[id].(withdrawalCount := Min(c.cis[id].currcount, c.cis[id].goalcount))],
                     lamports := lamports', tokens := tokens'))
  {
    DrawnCampaigns(c.ips, c.cis, c.cps, c.lamports, c.tokens, id, lamports', tokens', from);
    FinitesKept(c.fbContracts, c.fbBuyers, c.lamports, lamports', from);
  }

  /** `Drawn` on the campaign half of the invariant. */
  lemma DrawnCampaigns(ips: map<IpId, IPAccount>, cis: map<IpId, CIAccount>, cps: map<IpId, map<Address, CPAccount>>,
                       lamports: map<Address, nat>, tokens: map<Address, nat>, id: IpId,
                       lamports': map<Address, nat>, tokens': map<Address, nat>, from: Address)
    requires CampaignsSound(ips, cis, cps, lamports, tokens) && id in cis
    requires MayBeDebited(from, id) && Debits(lamports, lamports', from) && Debits(tokens, tokens', from)
    requires var ci := cis[id];
      ci.withdrawalCount <= Min(ci.currcount, ci.goalcount)
      && Escrow(ci, id, lamports', tokens') + Mul(Min(ci.currcount, ci.goalcount) - ci.withdrawalCount, ci.price)
           >= Escrow(ci, id, lamports, tokens)
    ensures CampaignsSound(ips, cis[id := cis[id].(withdrawalCount := Min(cis[id].currcount, cis[id].goalcount))], cps, lamports', tokens')
  {
    var ci := cis[id];
    var ci' := ci.(withdrawalCount := Min(ci.currcount, ci.goalcount));
    assert CampaignOk(ips, cis, cps, lamports, tokens, id);
    DrawnSound(ci, cps[id], Escrow(ci, id, lamports, tokens), Escrow(ci', id, lamports', tokens'));
    CampaignChanged(ips, cis, cps, lamports, tokens, id, ips, ci', cps, lamports', tokens', from, from);
  }

  /** The owner's draw seen from the campaign: when the escrow loses no
      more than the price of the units drawn, the campaign stays sound. */
  lemma DrawnSound(ci: CIAccount, ps: map<Address, CPAccount>, escrow: nat, escrow': nat)
    requires CampaignSound(ci, ps, escrow)
    requires escrow' + Mul(Min(ci.currcount, ci.goalcount) - ci.withdrawalCount, ci.price) >= escrow
    ensures CampaignSound(ci.(withdrawalCount := Min(ci.currcount, ci.goalcount)), ps, escrow')
  {
    DrawSound(ci, ps, escrow);
    EscrowGrows(ci.(withdrawalCount := Min(ci.currcount, ci.goalcount)), ps,
                escrow - Mul(Min(ci.currcount, ci.goalcount) - ci.withdrawalCount, ci.price), escrow');
  }

  /** Payer `a` of campaign `id` topping up to the current share: when no
      more than the difference leaves the escrow, and nothing leaves any
      other, the store stays sound. */
  lemma ToppedUp(c: Chain, id: IpId, a: Address, lamports': map<Address, nat>, tokens': map<Address, nat>, from: Address)
    requires Sound(c) && id in c.cis && a in PaymentsOf(c.cps, id)
    requires MayBeDebited(from, id) && Debits(c.lamports, lamports', from) && Debits(c.tokens, tokens', from)
    requires var ci := c.cis[id];
      Escrow(ci, id, lamports', tokens') + (Entitlement(ci.currcount, ci.goalcount, ci.price) - PaymentsOf(c.cps, id)[a].withdrawal)
        >= Escrow(ci, id, c.lamports, c.tokens)
    ensures var ci := c.cis[id];
      var ps := PaymentsOf(c.cps, id);
      Sound(c.(cps := c.cps[id := ps[a := ps[a].(withdrawal := Entitlement(ci.currcount, ci.goalcount, ci.price))]],
               lamports := lamports', tokens := tokens'))
  {
    ToppedUpCampaigns(c.ips, c.cis, c.cps, c.lamports, c.tokens, id, a, lamports', tokens', from);
    FinitesKept(c.fbContracts, c.fbBuyers, c.lamports, lamports', from);
  }

  /** `ToppedUp` on the campaign half of the invariant. */
  lemma ToppedUpCampaigns(ips: map<IpId, IPAccount>, cis: map<IpId, CIAccount>, cps: map<IpId, map<Address, CPAccount>>,
                          lamports: map<Address, nat>, tokens: map<Address, nat>, id: IpId, a: Address,
                          lamports': map<Address, nat>, tokens': map<Address, nat>, from: Address)
    requires CampaignsSound(ips, cis, cps, lamports, tokens) && id in cis && a in PaymentsOf(cps, id)
    requires MayBeDebited(from, id) && Debits(lamports, lamports', from) && Debits(tokens, tokens', from)
    requires var ci := cis[id];
      Escrow(ci, id, lamports', tokens') + (Entitlement(ci.currcount, ci.goalcount, ci.price) - PaymentsOf(cps, id)[a].withdrawal)
        >= Escrow(ci, id, lamports, tokens)
    ensures var ci := cis[id];
      var ps := PaymentsOf(cps, id);
      CampaignsSound(ips, cis, cps[id := ps[a := ps[a].(withdrawal := Entitlement(ci.currcount, ci.goalcount, ci.price))]],
                     lamports', tokens')
  {
    var ci := cis[id];
    assert CampaignOk(ips, cis, cps, lamports, tokens, id);
    var ps := cps[id];
    var e := Entitlement(ci.currcount, ci.goalcount, ci.price);
    var escrow := Escrow(ci, id, lamports, tokens);
    TopUpSound(ci, ps, a, escrow);
    var ps' := ps[a := ps[a].(withdrawal := e)];
    EscrowGrows(ci, ps', escrow - (e - ps[a].withdrawal), Escrow(ci, id, lamports', tokens'));
    CampaignChanged(ips, cis, cps, lamports, tokens, id, ips, ci, cps[id := ps'], lamports', tokens', from, from);
    assert cis[id := ci] == cis;
  }

  /** An instruction ran as a transaction: when `step`, the effect it has on
      `before`, succeeds the store becomes its result; when it fails the
      store stays as it was and the error is reported. */
  predicate Applied(step: Result<Chain>, r: Result<()>, before: Chain, after: Chain) {
    match step
    case Ok(c') => r == Ok(()) && after == c'
    case Err(e) => r == Err(e) && after == before
  }

  /** The program's state on chain. Each instruction is a method that reads
      and updates `chain`, and keeps `Valid()`. */
  class Ledger {
    var chain: Chain

    ghost predicate Valid()
      reads this
    {
      Sound(chain)
    }

    /** A store with no records and the given balances. */
    constructor (lamports: map<Address, nat>, tokens: map<Address, nat>)
      ensures Valid()
      ensures chain == Empty(lamports, tokens)
    {
      chain := Empty(lamports, tokens);
    }
  }
}
