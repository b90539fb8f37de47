/**
  The earlier snapshot of the IP registry (general.rs). It differs from
  the registry of contracts/general.rs in two handlers: creating a user
  record stores the chosen name and the signer's key in it, and a new IP
  names the signer's user record, not the signer's key, as its owner. The
  two delete handlers and the account declarations are the same as there,
  and are modelled once, in `Registry`.

  With these records the owner checks of the compensative buyout (the IP's
  owner is the owner record passed in, and that record names the signer)
  hold for the IP's registrant.
 */
module EarlyRegistry {
  import opened Records
  import opened Store
  import Registry
  import CompensativeBuyout

  /** `create_user_account`: the signer's user record holds the name given
      and the signer's key. */
  function CreateUserStep(c: Chain, signer: Pubkey, username: string): Result<Chain> {
    if signer in c.users then Err(AccountAlreadyInUse)
    else Ok(c.(users := c.users[signer := UserAccount(username, signer)]))
  }

  method CreateUserAccount(l: Ledger, signer: Pubkey, username: string) returns (r: Result<()>)
    requires l.Valid()
    modifies l
    ensures l.Valid()
    ensures Applied(CreateUserStep(old(l.chain), signer, username), r, old(l.chain), l.chain)
  {
    var c := l.chain;
    var user := UserAccount("", DefaultKey);
    user := user.(username := username, useraddr := signer);
    var users := Init(c.users, signer, user);
    if users.Err? { return Err(users.error); }
    l.chain := c.(users := users.value);
    r := Ok(());
  }

  /** A user record is created exactly when the signer has none; it holds
      the name as given and the signer's key, and no other record or
      balance changes. */
  lemma CreateUserOpens(c: Chain, signer: Pubkey, username: string)
    ensures CreateUserStep(c, signer, username).Ok? <==> signer !in c.users
    ensures var r := CreateUserStep(c, signer, username);
      r.Ok? ==>
        && r.value.users.Keys == c.users.Keys + {signer}
        && r.value.users[signer].username == username && r.value.users[signer].useraddr == signer
        && (forall u :: u in c.users ==> r.value.users[u] == c.users[u])
        && r.value.(users := c.users) == c
  {
  }

  /** A user record is created once per signer, whatever name is asked for. */
  lemma CreateUserOnce(c: Chain, signer: Pubkey, username: string, username': string)
    requires CreateUserStep(c, signer, username).Ok?
    ensures CreateUserStep(CreateUserStep(c, signer, username).value, signer, username') == Err(AccountAlreadyInUse)
  {
  }

  /** `create_ip_account`: a signer with a user record registers `ipid`,
      Private, owned by the signer's user record. */
  function CreateIpStep(c: Chain, signer: Pubkey, ipid: IpId, title: string): Result<Chain> {
    if signer !in c.users then Err(AccountNotInitialized)
    else if ipid in c.ips then Err(AccountAlreadyInUse)
    else Ok(c.(ips := c.ips[ipid := IPAccount(ipid, title, UserPda(signer), IpOwnershipPrivate)]))
  }

  method CreateIpAccount(l: Ledger, signer: Pubkey, ipid: IpId, title: string) returns (r: Result<()>)
    requires l.Valid()
    modifies l
    ensures l.Valid()
    ensures Applied(CreateIpStep(old(l.chain), signer, ipid, title), r, old(l.chain), l.chain)
  {
    var c := l.chain;
    if signer !in c.users { return Err(AccountNotInitialized); }
    if ipid in c.ips { return Err(AccountAlreadyInUse); }
    var ip := IPAccount(0, "", Wallet(DefaultKey), 0);
    ip := ip.(ipid := ipid, title := title, owner := UserPda(signer), ownership := IpOwnershipPrivate);
    CreateIpSound(c, signer, ipid, title);
    l.chain := c.(ips := c.ips[ipid := ip]);
    r := Ok(());
  }

  /** Registering an IP keeps the store sound. */
  lemma CreateIpSound(c: Chain, signer: Pubkey, ipid: IpId, title: string)
    requires Sound(c) && CreateIpStep(c, signer, ipid, title).Ok?
    ensures Sound(CreateIpStep(c, signer, ipid, title).value)
  {
    Registry.IpsRetouched(c.ips, c.cis, c.cps, c.lamports, c.tokens, CreateIpStep(c, signer, ipid, title).value.ips);
  }

  /** This registry accepts and refuses exactly as the later one does, and
      records the same IP but for the owner: the signer's user record here,
      the signer's key there. */
  lemma CreateIpOwnedByUserRecord(c: Chain, signer: Pubkey, ipid: IpId, title: string)
    ensures CreateIpStep(c, signer, ipid, title).Ok? <==> Registry.CreateIpStep(c, signer, ipid, title).Ok?
    ensures CreateIpStep(c, signer, ipid, title).Err? ==>
      CreateIpStep(c, signer, ipid, title) == Registry.CreateIpStep(c, signer, ipid, title)
    ensures var r := CreateIpStep(c, signer, ipid, title);
      var later := Registry.CreateIpStep(c, signer, ipid, title);
      r.Ok? ==>
        && r.value.ips[ipid].owner == UserPda(signer) && later.value.ips[ipid].owner == Wallet(signer)
        && r.value.ips[ipid] == later.value.ips[ipid].(owner := UserPda(signer))
        && r.value.ips.Keys == later.value.ips.Keys
        && (forall id :: id in c.ips ==> r.value.ips[id] == later.value.ips[id] == c.ips[id])
        && r.value.ips[ipid].ownership == IpOwnershipPrivate
  {
  }

  /** An IP record is created once per id, whoever tries again. */
  lemma CreateIpOnce(c: Chain, signer: Pubkey, ipid: IpId, title: string, signer': Pubkey, title': string)
    requires CreateIpStep(c, signer, ipid, title).Ok? && signer' in c.users
    ensures CreateIpStep(CreateIpStep(c, signer, ipid, title).value, signer', ipid, title') == Err(AccountAlreadyInUse)
  {
  }

  /** A registrant who creates a user record and then an IP under a free id
      can publish a compensative campaign on it through that user record,
      given a positive price and goal. */
  lemma RegistrantPublishes(c: Chain, signer: Pubkey, username: string, ipid: IpId, title: string,
                            price: U64, goalcount: U64, maxcount: U64)
    requires signer !in c.users && ipid !in c.ips && ipid !in c.cis && price > 0 && goalcount > 0
    ensures CreateUserStep(c, signer, username).Ok?
    ensures CreateIpStep(CreateUserStep(c, signer, username).value, signer, ipid, title).Ok?
    ensures var registered := CreateIpStep(CreateUserStep(c, signer, username).value, signer, ipid, title).value;
      CompensativeBuyout.PublishStep(registered, signer, ipid, UserPda(signer), price, goalcount, maxcount).Ok?
  {
  }
}
