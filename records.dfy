/**
  The record model of the buyout program: ownership and contract-type codes,
  the account records, the addresses they live at, the error codes, and the
  two store primitives every instruction is built from: an account created
  once at a derived address (`init` with seeds) and a balance transfer that
  either moves the whole amount or fails.
 */
module Records {

  const U64Limit: nat := 0x1_0000_0000_0000_0000

  /** A `u64` instruction argument. */
  type U64 = x: nat | x < U64Limit

  /** A public key; only equality matters. `DefaultKey` is the all-zero key a
      freshly created account holds in a field nobody writes. */
  type Pubkey = nat
  const DefaultKey: Pubkey := 0

  /** The identifier an IP is registered under, from which the seeds of its
      "ip" and "ci" records are derived. The registry and the compensative
      buyout take it as a string, the goal/max buyout as a public key; only
      equality matters, so both are modelled by one abstract type. */
  type IpId = nat

  const IpOwnershipPrivate: nat := 1
  const IpOwnershipPublished: nat := 2
  const IpOwnershipPublic: nat := 3

  const ContractTypeFiniteBuyout: nat := 1
  const ContractTypeCompensativeBuyout: nat := 2
  const ContractTypeGoalmaxBuyout: nat := 3

  /** An on-chain address: a wallet, or a program-derived address whose seeds
      are the constructor's arguments (distinct seeds, distinct addresses). */
  datatype Address =
    | Wallet(key: Pubkey)                    // a signer's own account
    | UserPda(user: Pubkey)                  // seeds ["user", user]
    | CiPda(campaign: IpId)                  // seeds ["ci", ipid]
    | CiVault(vaultOf: IpId)                 // the campaign's associated token account
    | FbContractPda(author: Pubkey, fbIpid: nat)  // seeds ["fb-contract", author, n]

  datatype IPAccount = IPAccount(ipid: IpId, title: string, owner: Address, ownership: nat)

  datatype UserAccount = UserAccount(username: string, useraddr: Pubkey)

  /** The campaign record ("contract issue"), with the union of the fields the
      goal/max and the compensative buyouts write. */
  datatype CIAccount = CIAccount(
    ipid: IpId,
    tokenMint: Pubkey,
    price: nat,
    contractType: nat,
    goalcount: nat,
    currcount: nat,
    maxcount: nat,
    withdrawalCount: nat)

  /** One payer's record in one campaign ("contract payment"). */
  datatype CPAccount = CPAccount(ipid: IpId, owner: Pubkey, withdrawal: nat)

  /** The seeds of a credit record: the payer's user record and the campaign. */
  datatype CpKey = CpKey(payer: Address, ci: IpId)

  datatype FBContractAccount = FBContractAccount(author: Pubkey, ipid: nat, price: nat, goalcount: nat, headcount: nat)

  datatype FbKey = FbKey(author: Pubkey, ipid: nat)

  datatype BuyerAccount = BuyerAccount(buyer: Pubkey)

  datatype Error =
    // raised by the program
    | InvalidPrice
    | InvalidGoalcount
    | InvalidMaxcount
    | LamportsNotEnough
    | GoalAlreadyAchieved
    | ContractHasNoLamports
    | WrongIPOwnership
    | WrongContractType
    | MathFailure
    // raised by the runtime while checking the accounts or moving tokens
    | AccountAlreadyInUse     // `init` at an address that already holds an account
    | AccountNotInitialized   // a required account does not exist
    | ConstraintRaw           // a `constraint = ...` does not hold
    | InsufficientFunds       // a token transfer larger than the source balance
    | ArithmeticOverflow      // an unchecked u64 operation overflowed and aborted the transaction

  datatype Result<T> = Ok(value: T) | Err(error: Error)

  /** The balance held at `a`; an address never credited holds nothing. */
  function Balance(m: map<Address, nat>, a: Address): nat {
    if a in m then m[a] else 0
  }

  /** Moves `amount` from `from` to `to`, or fails when `from` holds less. */
  function Transfer(m: map<Address, nat>, from: Address, to: Address, amount: nat): (r: Result<map<Address, nat>>)
    ensures r.Ok? <==> amount <= Balance(m, from)
    ensures r.Err? ==> r.error == InsufficientFunds
    ensures r.Ok? && from != to ==>
      Balance(r.value, from) + amount == Balance(m, from) && Balance(r.value, to) == Balance(m, to) + amount
    ensures r.Ok? && from == to ==> Balance(r.value, from) == Balance(m, from)
    ensures r.Ok? ==> forall a :: a != from && a != to ==> Balance(r.value, a) == Balance(m, a)
  {
    if Balance(m, from) < amount then Err(InsufficientFunds)
    else
      var debited := m[from := Balance(m, from) - amount];
      Ok(debited[to := Balance(debited, to) + amount])
  }

  /** `init` with seeds: creates the record at `k`, which must be free. */
  function Init<K, V>(m: map<K, V>, k: K, v: V): (r: Result<map<K, V>>)
    ensures r.Ok? <==> k !in m
    ensures r.Err? ==> r.error == AccountAlreadyInUse
    ensures r.Ok? ==> r.value.Keys == m.Keys + {k} && r.value[k] == v
    ensures r.Ok? ==> forall j :: j in m ==> r.value[j] == m[j]
  {
    if k in m then Err(AccountAlreadyInUse) else Ok(m[k := v])
  }

  /** `close`: removes the record at `k`, which must exist. */
  function Close<K, V>(m: map<K, V>, k: K): (r: Result<map<K, V>>)
    ensures r.Ok? <==> k in m
    ensures r.Err? ==> r.error == AccountNotInitialized
    ensures r.Ok? ==> r.value.Keys == m.Keys - {k}
    ensures r.Ok? ==> forall j :: j in r.value ==> r.value[j] == m[j]
  {
    if k in m then Ok(m - {k}) else Err(AccountNotInitialized)
  }

  /** A record created at a key cannot be created there again. */
  lemma InitOnce<K, V>(m: map<K, V>, k: K, v: V, v': V)
    requires Init(m, k, v).Ok?
    ensures Init(Init(m, k, v).value, k, v') == Err(AccountAlreadyInUse)
  {
  }

  /** Closing a record frees its key: it can be created afresh. */
  lemma CloseFrees<K, V>(m: map<K, V>, k: K, v: V)
    requires Close(m, k).Ok?
    ensures Init(Close(m, k).value, k, v) == Ok(m[k := v])
  {
    assert (m - {k})[k := v] == m[k := v];
  }

  /** The ownership codes are distinct and ordered as the life cycle runs:
      Private, then Published, then Public. */
  lemma OwnershipCodesOrdered()
    ensures IpOwnershipPrivate < IpOwnershipPublished < IpOwnershipPublic
  {
  }
}
