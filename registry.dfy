/**
  The IP registry (contracts/general.rs, with the account declarations of
  state.rs): a signer creates the signer's user record, registers IPs
  under ids of the signer's choosing, and deletes them again while they
  are Private. The user-record handlers write nothing, so a user record
  created here holds an empty name and the all-zero key, and an IP names
  the signer's own key as its owner.
 */
module Registry {
  import opened Records
  import opened Campaign
  import opened Store
  import CompensativeBuyout

  /** Re-pointing the IP records keeps the campaign invariant as long as
      the IP of every campaign is left as it was. */
  lemma IpsRetouched(ips: map<IpId, IPAccount>, cis: map<IpId, CIAccount>, cps: map<IpId, map<Address, CPAccount>>,
                     lamports: map<Address, nat>, tokens: map<Address, nat>, ips': map<IpId, IPAccount>)
    requires CampaignsSound(ips, cis, cps, lamports, tokens)
    requires forall id :: id in cis && id in ips ==> id in ips' && ips'[id] == ips[id]
    ensures CampaignsSound(ips', cis, cps, lamports, tokens)
  {
    forall id | id in cis
      ensures CampaignOk(ips', cis, cps, lamports, tokens, id)
    {
      assert CampaignOk(ips, cis, cps, lamports, tokens, id);
    }
  }

  /** A Private IP has no campaign. */
  lemma PrivateHasNoCampaign(c: Chain, ipid: IpId)
    requires Sound(c) && ipid in c.ips && c.ips[ipid].ownership == IpOwnershipPrivate
    ensures ipid !in c.cis
  {
    if ipid in c.cis {
      CampaignAt(c, ipid);
    }
  }

  /** `create_user_account`: the record at seeds ["user", signer] is
      created and nothing is written into it. */
  function CreateUserStep(c: Chain, signer: Pubkey): Result<Chain> {
    if signer in c.users then Err(AccountAlreadyInUse)
    else Ok(c.(users := c.users[signer := UserAccount("", DefaultKey)]))
  }

  method CreateUserAccount(l: Ledger, signer: Pubkey) returns (r: Result<()>)
    requires l.Valid()
    modifies l
    ensures l.Valid()
    ensures Applied(CreateUserStep(old(l.chain), signer), r, old(l.chain), l.chain)
  {
    var c := l.chain;
    var users := Init(c.users, signer, UserAccount("", DefaultKey));
    if users.Err? { return Err(users.error); }
    l.chain := c.(users := users.value);
    r := Ok(());
  }

  /** A user record is created exactly when the signer has none; it holds
      no name and the all-zero key, and no other record or balance
      changes. */
  lemma CreateUserOpens(c: Chain, signer: Pubkey)
    ensures CreateUserStep(c, signer).Ok? <==> signer !in c.users
    ensures var r := CreateUserStep(c, signer);
      r.Ok? ==>
        && r.value.users.Keys == c.users.Keys + {signer}
        && r.value.users[signer] == UserAccount("", DefaultKey)
        && (forall u :: u in c.users ==> r.value.users[u] == c.users[u])
        && r.value.(users := c.users) == c
  {
  }

  /** A user record is created once per signer. */
  lemma CreateUserOnce(c: Chain, signer: Pubkey)
    requires CreateUserStep(c, signer).Ok?
    ensures CreateUserStep(CreateUserStep(c, signer).value, signer) == Err(AccountAlreadyInUse)
  {
  }

  /** `delete_user_account`: the signer's user record is closed and its
      lamports go to the signer's wallet. */
  function DeleteUserStep(c: Chain, signer: Pubkey): Result<Chain> {
    if signer !in c.users then Err(AccountNotInitialized)
    else
      Ok(c.(users := c.users - {signer},
            lamports := Transfer(c.lamports, UserPda(signer), Wallet(signer), Balance(c.lamports, UserPda(signer))).value))
  }

  method DeleteUserAccount(l: Ledger, signer: Pubkey) returns (r: Result<()>)
    requires l.Valid()
    modifies l
    ensures l.Valid()
    ensures Applied(DeleteUserStep(old(l.chain), signer), r, old(l.chain), l.chain)
  {
    var c := l.chain;
    var users := Close(c.users, signer);
    if users.Err? { return Err(users.error); }
    var moved := Transfer(c.lamports, UserPda(signer), Wallet(signer), Balance(c.lamports, UserPda(signer)));
    DeleteUserSound(c, signer);
    l.chain := c.(users := users.value, lamports := moved.value);
    r := Ok(());
  }

  /** Deleting a user record keeps the store sound: a user record is no
      escrow. */
  lemma DeleteUserSound(c: Chain, signer: Pubkey)
    requires Sound(c) && DeleteUserStep(c, signer).Ok?
    ensures Sound(DeleteUserStep(c, signer).value)
  {
    var lamports' := DeleteUserStep(c, signer).value.lamports;
    TransferDebits(c.lamports, UserPda(signer), Wallet(signer), Balance(c.lamports, UserPda(signer)));
    CampaignsKept(c.ips, c.cis, c.cps, c.lamports, c.tokens, lamports', UserPda(signer));
    FinitesKept(c.fbContracts, c.fbBuyers, c.lamports, lamports', UserPda(signer));
  }

  /** A user record is deleted exactly when it exists; afterwards it is
      gone, the signer's wallet holds what it held, and no other record or
      balance changes. */
  lemma DeleteUserCloses(c: Chain, signer: Pubkey)
    ensures DeleteUserStep(c, signer).Ok? <==> signer in c.users
    ensures var r := DeleteUserStep(c, signer);
      r.Ok? ==>
        && r.value.users.Keys == c.users.Keys - {signer}
        && (forall u :: u in r.value.users ==> r.value.users[u] == c.users[u])
        && Balance(r.value.lamports, UserPda(signer)) == 0
        && Balance(r.value.lamports, Wallet(signer)) == Balance(c.lamports, Wallet(signer)) + Balance(c.lamports, UserPda(signer))
        && (forall a :: a != UserPda(signer) && a != Wallet(signer) ==> Balance(r.value.lamports, a) == Balance(c.lamports, a))
        && r.value.(users := c.users, lamports := c.lamports) == c
  {
  }

  /** Deleting the user record just created restores the user records as
      they were. */
  lemma CreateThenDeleteUser(c: Chain, signer: Pubkey)
    requires CreateUserStep(c, signer).Ok?
    ensures DeleteUserStep(CreateUserStep(c, signer).value, signer).Ok?
    ensures DeleteUserStep(CreateUserStep(c, signer).value, signer).value.users == c.users
  {
    assert c.users[signer := UserAccount("", DefaultKey)] - {signer} == c.users;
  }

  /** `create_ip_account`: a signer with a user record registers `ipid`,
      Private, owned by the signer's key. */
  function CreateIpStep(c: Chain, signer: Pubkey, ipid: IpId, title: string): Result<Chain> {
    if signer !in c.users then Err(AccountNotInitialized)
    else if ipid in c.ips then Err(AccountAlreadyInUse)
    else Ok(c.(ips := c.ips[ipid := IPAccount(ipid, title, Wallet(signer), IpOwnershipPrivate)]))
  }

  method CreateIpAccount(l: Ledger, signer: Pubkey, ipid: IpId, title: string) returns (r: Result<()>)
    requires l.Valid()
    modifies l
    ensures l.Valid()
    ensures Applied(CreateIpStep(old(l.chain), signer, ipid, title), r, old(l.chain), l.chain)
  {
    var c := l.chain;
    if signer !in c.users { return Err(AccountNotInitialized); }
    if ipid in c.ips { return Err(AccountAlreadyInUse); }
    var ip := IPAccount(0, "", Wallet(DefaultKey), 0);
    ip := ip.(ipid := ipid, title := title, owner := Wallet(signer), ownership := IpOwnershipPrivate);
    CreateIpSound(c, signer, ipid, title);
    l.chain := c.(ips := c.ips[ipid := ip]);
    r := Ok(());
  }

  /** Registering an IP keeps the store sound: the id is free, so no
      campaign runs on it. */
  lemma CreateIpSound(c: Chain, signer: Pubkey, ipid: IpId, title: string)
    requires Sound(c) && CreateIpStep(c, signer, ipid, title).Ok?
    ensures Sound(CreateIpStep(c, signer, ipid, title).value)
  {
    IpsRetouched(c.ips, c.cis, c.cps, c.lamports, c.tokens, CreateIpStep(c, signer, ipid, title).value.ips);
  }

  /** An IP is registered exactly when the signer has a user record and
      the id is free; the record holds the id and the title as given, the
      signer's key as owner and Private as ownership, and no other record
      or balance changes. */
  lemma CreateIpOpens(c: Chain, signer: Pubkey, ipid: IpId, title: string)
    ensures CreateIpStep(c, signer, ipid, title).Ok? <==> signer in c.users && ipid !in c.ips
    ensures var r := CreateIpStep(c, signer, ipid, title);
      r.Ok? ==>
        && r.value.ips == c.ips[ipid := IPAccount(ipid, title, Wallet(signer), IpOwnershipPrivate)]
        && r.value.(ips := c.ips) == c
  {
  }

  /** An IP record is created once per id, whoever tries again. */
  lemma CreateIpOnce(c: Chain, signer: Pubkey, ipid: IpId, title: string, signer': Pubkey, title': string)
    requires CreateIpStep(c, signer, ipid, title).Ok? && signer' in c.users
    ensures CreateIpStep(CreateIpStep(c, signer, ipid, title).value, signer', ipid, title') == Err(AccountAlreadyInUse)
  {
  }

  /** An IP registered here names a wallet as its owner, while the
      compensative publish wants the owner to be a user record: no one can
      publish a compensative campaign on it. */
  lemma CreatedIpNotCompensative(c: Chain, signer: Pubkey, ipid: IpId, title: string,
                                 signer': Pubkey, owner: Address, price: U64, goalcount: U64, maxcount: U64)
    requires CreateIpStep(c, signer, ipid, title).Ok?
    ensures CompensativeBuyout.PublishStep(CreateIpStep(c, signer, ipid, title).value, signer', ipid, owner, price, goalcount, maxcount).Err?
  {
  }

  /** `delete_ip_account` as written: the IP record is closed when it is
      Private and the signer has a user record; nothing ties the signer to
      the IP's owner. */
  function DeleteIpStep(c: Chain, signer: Pubkey, ipid: IpId): Result<Chain> {
    if ipid !in c.ips || signer !in c.users then Err(AccountNotInitialized)
    else if c.ips[ipid].ownership != IpOwnershipPrivate then Err(WrongIPOwnership)
    else Ok(c.(ips := c.ips - {ipid}))
  }

  method DeleteIpAccount(l: Ledger, signer: Pubkey, ipid: IpId) returns (r: Result<()>)
    requires l.Valid()
    modifies l
    ensures l.Valid()
    ensures Applied(DeleteIpStep(old(l.chain), signer, ipid), r, old(l.chain), l.chain)
  {
    var c := l.chain;
    if ipid !in c.ips || signer !in c.users { return Err(AccountNotInitialized); }
    if c.ips[ipid].ownership != IpOwnershipPrivate { return Err(WrongIPOwnership); }
    DeleteIpSound(c, signer, ipid);
    l.chain := c.(ips := c.ips - {ipid});
    r := Ok(());
  }

  /** Deleting a Private IP keeps the store sound: it has no campaign. */
  lemma DeleteIpSound(c: Chain, signer: Pubkey, ipid: IpId)
    requires Sound(c) && DeleteIpStep(c, signer, ipid).Ok?
    ensures Sound(DeleteIpStep(c, signer, ipid).value)
  {
    PrivateHasNoCampaign(c, ipid);
    IpsRetouched(c.ips, c.cis, c.cps, c.lamports, c.tokens, c.ips - {ipid});
  }

  /** An IP is deleted exactly when it exists, the signer has a user record
      and the IP is Private: a Published or Public IP cannot be deleted.
      Afterwards the id is free, and no other IP, record or balance
      changes. */
  lemma DeleteIpCloses(c: Chain, signer: Pubkey, ipid: IpId)
    ensures DeleteIpStep(c, signer, ipid).Ok? <==>
      ipid in c.ips && signer in c.users && c.ips[ipid].ownership == IpOwnershipPrivate
    ensures ipid in c.ips && signer in c.users && c.ips[ipid].ownership != IpOwnershipPrivate ==>
      DeleteIpStep(c, signer, ipid) == Err(WrongIPOwnership)
    ensures var r := DeleteIpStep(c, signer, ipid);
      r.Ok? ==>
        && r.value.ips.Keys == c.ips.Keys - {ipid} && (forall id :: id in r.value.ips ==> r.value.ips[id] == c.ips[id])
        && r.value.(ips := c.ips) == c
  {
  }

  /** On a sound store no IP that has a campaign can be deleted. */
  lemma CampaignIpKept(c: Chain, signer: Pubkey, ipid: IpId)
    requires Sound(c) && ipid in c.cis
    ensures DeleteIpStep(c, signer, ipid).Err?
  {
    CampaignAt(c, ipid);
  }

  /** Deleting the IP just registered frees its id again. */
  lemma CreateThenDeleteIp(c: Chain, signer: Pubkey, ipid: IpId, title: string)
    requires CreateIpStep(c, signer, ipid, title).Ok?
    ensures DeleteIpStep(CreateIpStep(c, signer, ipid, title).value, signer, ipid).Ok?
    ensures DeleteIpStep(CreateIpStep(c, signer, ipid, title).value, signer, ipid).value.ips == c.ips
  {
    assert c.ips[ipid := IPAccount(ipid, title, Wallet(signer), IpOwnershipPrivate)] - {ipid} == c.ips;
  }

  /** Any signer with a user record can delete someone else's Private IP. */
  lemma StrangerDeletes(c: Chain, owner: Pubkey, stranger: Pubkey, ipid: IpId, title: string)
    requires owner != stranger && stranger in c.users
    requires CreateIpStep(c, owner, ipid, title).Ok?
    ensures var c' := CreateIpStep(c, owner, ipid, title).value;
      c'.ips[ipid].owner == Wallet(owner) && DeleteIpStep(c', stranger, ipid).Ok?
  {
  }

  /** The IP names the signer as its owner: by the signer's key, as this
      registry records it, or by the signer's user record, as the earlier
      registry does. */
  predicate OwnedBy(ip: IPAccount, signer: Pubkey) {
    ip.owner == Wallet(signer) || ip.owner == UserPda(signer)
  }

  /** `delete_ip_account` with the owner check it evidently intends: the
      IP's owner must be the signer. */
  function DeleteOwnIpStep(c: Chain, signer: Pubkey, ipid: IpId): Result<Chain> {
    if ipid !in c.ips || signer !in c.users then Err(AccountNotInitialized)
    else if !OwnedBy(c.ips[ipid], signer) then Err(ConstraintRaw)
    else if c.ips[ipid].ownership != IpOwnershipPrivate then Err(WrongIPOwnership)
    else Ok(c.(ips := c.ips - {ipid}))
  }

  /** With the owner check only the owner deletes an IP, and the owner
      deletes it exactly when the as-written handler would. */
  lemma OnlyOwnerDeletes(c: Chain, signer: Pubkey, ipid: IpId)
    ensures DeleteOwnIpStep(c, signer, ipid).Ok? ==> OwnedBy(c.ips[ipid], signer)
    ensures ipid in c.ips && OwnedBy(c.ips[ipid], signer) ==> DeleteOwnIpStep(c, signer, ipid) == DeleteIpStep(c, signer, ipid)
    ensures ipid in c.ips && signer in c.users && !OwnedBy(c.ips[ipid], signer) ==>
      DeleteOwnIpStep(c, signer, ipid) == Err(ConstraintRaw)
  {
  }

  /** The corrected delete keeps the store sound. */
  lemma DeleteOwnIpSound(c: Chain, signer: Pubkey, ipid: IpId)
    requires Sound(c) && DeleteOwnIpStep(c, signer, ipid).Ok?
    ensures Sound(DeleteOwnIpStep(c, signer, ipid).value)
  {
    DeleteIpSound(c, signer, ipid);
  }

  /** `delete_ip_account` with the owner check, on the ledger. */
  method DeleteOwnIpAccount(l: Ledger, signer: Pubkey, ipid: IpId) returns (r: Result<()>)
    requires l.Valid()
    modifies l
    ensures l.Valid()
    ensures Applied(DeleteOwnIpStep(old(l.chain), signer, ipid), r, old(l.chain), l.chain)
  {
    var c := l.chain;
    if ipid !in c.ips || signer !in c.users { return Err(AccountNotInitialized); }
    var ip := c.ips[ipid];
    if ip.owner != Wallet(signer) && ip.owner != UserPda(signer) { return Err(ConstraintRaw); }
    if ip.ownership != IpOwnershipPrivate { return Err(WrongIPOwnership); }
    DeleteOwnIpSound(c, signer, ipid);
    l.chain := c.(ips := c.ips - {ipid});
    r := Ok(());
  }
}
