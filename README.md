# poip buyout program, modelled in Dafny

The poip program is a Solana program, written with Anchor. It registers
intellectual property (IP) and sells it through buyout campaigns. A user
creates a user record and then registers IPs, which start out Private. The
IP's owner publishes a campaign ("contract issue") with a unit price and a
goal. Buyers pay one unit each, and each payment leaves a payment record.
The owner withdraws the price of every unit paid up to the goal. Payers who
joined once the goal was reached pay less. When later payers join, every
payer may claim a bonus that tops their share up to the current one:

    (curr - goal) * price / curr

The program has three campaign kinds:

- **goal/max buyout** (`contracts/goalmax_buyout.rs`): paid in SPL tokens
  into the campaign's token account. It is capped at `maxcount`; the IP
  becomes Public when the cap is reached.
- **compensative buyout** (`contracts/compensative_buyout.rs`, with its
  account declarations in `state.rs`): paid in lamports into the campaign
  record. It has no cap, and every payment also leaves a credit record.
- **finite buyout** (`contracts/finite_buyout.rs`): an author's contract
  counts a fixed number of heads. Each buyer pays the full price once. As
  written, the contract's seeds take the price where the IP number was
  meant (see "Findings").

The registry comes in two snapshots. `contracts/general.rs` with `state.rs`
stores the signer's key as an IP's owner. The earlier `general.rs` stores the
signer's user record as the owner, and stores the name and key in that user
record.

## How the model is built

- `Records` holds the account records, the program's error codes, and
  balances as maps from `Address` to `nat`. An `Address` is a wallet or one
  of the program-derived addresses the program seeds. `Records` also holds
  the `init`/`close` account primitives.
- `Store.Chain` is the whole on-chain state: every record kind as a map keyed
  by its seeds, plus the lamport and token balances. `Store.Ledger` is a
  class whose `chain` field the instruction methods update in place.
  `Ledger.Valid()` is the store invariant `Sound`.
- Each instruction is written twice, and the two are tied together:
  - a step function `XStep(c, ...) : Result<Chain>`, which performs Anchor's
    account checks in declaration order, then the handler's `require!`s in
    order, then the transfer;
  - a method `X(l: Ledger, ...)`, which runs the same checks imperatively on
    `l.chain`. It is proved to keep `Valid()` and to apply `XStep` as a
    transaction (`Store.Applied`): a failing instruction leaves the state
    exactly as it was.
- The Rust `u64` arithmetic is explicit:
  - an unchecked operation that would wrap or underflow aborts the
    transaction, and is modelled as `ArithmeticOverflow`;
  - `checked_mul` failing is `MathFailure`;
  - a lamport or token transfer short of funds is `InsufficientFunds`.

  `PayStep`s abort with `ArithmeticOverflow` when the discount's product
  wraps. The `WithdrawSafe`, `DrawCovered`, `NoMathFailure`, `BonusSafe`,
  `WithdrawNoOverflow`, `OwedNoOverflow` and `BonusNoOverflow` lemmas show
  that withdraw and bonus never abort this way on a sound store. `Sound`
  carries the bound `curr * price < 2^64`, and only pays that keep it are
  admitted (see `GoalmaxBuyout.Pay` under "Left out").
- `Campaign.CampaignSound` is the campaign invariant:
  - one payment record per unit paid;
  - no record holds more than the current share;
  - the owner never draws past `min(curr, goal)`;
  - the escrow plus what the owner and the payers have drawn covers
    `curr * price`.

  `Store.Sound` requires this of every campaign, and the analogous property
  of every finite-buyout contract. It also ties each IP's ownership to its
  campaign.
- `Program.Execute` dispatches all sixteen handlers as written, plus three
  instructions for the corrected forms of `delete_ip_account`, the goal/max
  `publish` and the finite `issue` (see "Findings"). `Program.RunSound` proves by
  induction that any sequence of transactions keeps the store sound, as long
  as every pay in it stays within the `u64` bound (`RunFits`).

## Model

| member | source | states |
|---|---|---|
| Records.Transfer | programs/poip/src/contracts/compensative_buyout.rs:41-48 | A transfer succeeds exactly when the sender holds the amount (else InsufficientFunds), debits the sender, credits the receiver, and leaves every other balance alone |
| Records.Init | programs/poip/src/state.rs:58-62 | `init` with seeds succeeds exactly when the address is free (else AccountAlreadyInUse); it adds that one record and keeps all others |
| Records.Close | programs/poip/src/state.rs:70-74 | `close` succeeds exactly when the record exists (else AccountNotInitialized); it removes that one record and keeps all others |
| Records.InitOnce | programs/poip/src/state.rs:58-62 | A record created at some seeds cannot be created there again |
| Records.CloseFrees | programs/poip/src/state.rs:70-74 | Closing a record frees its seeds: init then recreates exactly the old map with the new record |
| Records.OwnershipCodesOrdered | programs/poip/src/state.rs:8-10 | The IP ownership codes Private < Published < Public are distinct and ordered as the life cycle runs |
| Payout.Entitlement | programs/poip/src/contracts/compensative_buyout.rs:70-72 | A payer's cumulative share is 0 while the count has not passed the goal |
| Payout.EntitlementValue | programs/poip/src/contracts/compensative_buyout.rs:70-72 | Past the goal the share is `(curr - goal) * price / curr` in ordinary arithmetic |
| Payout.EntitlementIsFloor | programs/poip/src/contracts/compensative_buyout.rs:70-72 | The `curr` shares together fit in `(curr - goal) * price`, and one more unit of each would not fit |
| Payout.EntitlementBelowPrice | programs/poip/src/contracts/compensative_buyout.rs:70-72 | A share never exceeds the price, and stays strictly below it for a positive goal and price |
| Payout.Discount | programs/poip/src/contracts/compensative_buyout.rs:30-32 | The pay-time discount is the share at the raised count, and a payer is never charged nothing (discount < price) |
| Payout.EntitlementMonotone | programs/poip/src/contracts/goalmax_buyout.rs:216-221 | A payer's share never shrinks as more payers join, so bonus never has to claw back |
| Payout.EntitlementCovered | programs/poip/src/contracts/compensative_buyout.rs:54-61 | The owner's `min(curr, goal)` units plus every payer's share fit in what `curr` payers paid |
| Payout.ObligationsCovered | programs/poip/src/contracts/compensative_buyout.rs:54-61 | After the owner draws the undrawn units, the owner's total plus the payers' claims stay within `curr * price` |
| Payout.TopUpCovered | programs/poip/src/contracts/compensative_buyout.rs:70-79 | A payer topping up to the full share, with every other payer at most at it, stays within `curr * price` |
| Campaign.DiscountFits | programs/poip/src/contracts/compensative_buyout.rs:30-32 | When every unit's price fits in a `u64`, the discount's `(curr + 1 - goal) * price` does not overflow |
| Campaign.FreshSound | programs/poip/src/contracts/compensative_buyout.rs:14-20 | A campaign as publish leaves it (positive price and goal, nothing counted or drawn) satisfies the campaign invariant |
| Campaign.JoinSound | programs/poip/src/contracts/compensative_buyout.rs:34-48 | A payer joining with the discounted share recorded and the rest of the price paid into escrow keeps the campaign invariant |
| Campaign.DrawSound | programs/poip/src/contracts/compensative_buyout.rs:54-61 | The owner's draw of the undrawn units fits in escrow and in a `u64`, and drawing it keeps the invariant |
| Campaign.TopUpSound | programs/poip/src/contracts/compensative_buyout.rs:70-79 | A payer's top-up to the current share fits in escrow and keeps the invariant |
| Store.CampaignAt | programs/poip/src/state.rs:31-47 | On a sound store every campaign has its IP and payment records, its IP's ownership follows the campaign, and its escrow covers what is owed |
| Store.Ledger.constructor | programs/poip/src/state.rs:12-54 | A ledger starts with no records and the given balances, and is valid |
| GoalmaxBuyout.Publish | programs/poip/src/contracts/goalmax_buyout.rs:39-58 | Keeps the store invariant and applies `PublishStep` as a transaction: missing IP, an existing campaign, then the four `require!`s in order; no check on the signer |
| GoalmaxBuyout.PublishSound | programs/poip/src/contracts/goalmax_buyout.rs:39-58 | A successful publish keeps the store sound |
| GoalmaxBuyout.PublishOpens | programs/poip/src/contracts/goalmax_buyout.rs:43-55 | Publish succeeds iff the IP exists, has no campaign, is Private and price > 0, goal > 0, max >= goal; the record holds the parameters, no payers, and the IP becomes Published |
| GoalmaxBuyout.PublishOnce | programs/poip/src/contracts/goalmax_buyout.rs:11-14 | A second publish on the same IP fails with AccountAlreadyInUse, whoever sends it and whatever its parameters |
| GoalmaxBuyout.StrangerPublishes | programs/poip/src/contracts/goalmax_buyout.rs:8-37 | A signer who does not own a Private IP can still publish it, and the campaign takes that signer's price, goal and cap |
| GoalmaxBuyout.OnlyOwnerPublishes | programs/poip/src/contracts/goalmax_buyout.rs:39-58 | With the owner check only the IP's owner publishes, the owner publishes exactly as before, and anyone else gets ConstraintRaw |
| GoalmaxBuyout.PublishOwnSound | programs/poip/src/contracts/goalmax_buyout.rs:39-58 | The corrected publish keeps the store sound |
| GoalmaxBuyout.PublishOwn | programs/poip/src/contracts/goalmax_buyout.rs:39-58 | Keeps the store invariant and applies `PublishOwnStep` as a transaction: the handler with the owner check it lacks, failing with ConstraintRaw for anyone but the IP's owner |
| GoalmaxBuyout.Pay | programs/poip/src/contracts/goalmax_buyout.rs:94-128 | Keeps the store invariant and applies `PayStep` as a transaction: account checks, discount, Published and below-cap `require!`s, then the updates and the token transfer |
| GoalmaxBuyout.PaySound | programs/poip/src/contracts/goalmax_buyout.rs:94-128 | A successful pay within the `u64` bound keeps the store sound |
| GoalmaxBuyout.PayNoOverflow | programs/poip/src/contracts/goalmax_buyout.rs:100-102 | Within the `u64` bound the discount's unchecked arithmetic never aborts |
| GoalmaxBuyout.PayCharges | programs/poip/src/contracts/goalmax_buyout.rs:104-125 | A pay raises the count by one, records the share at the new count, charges price minus it (0 < charge <= price) from the signer's tokens into the campaign's, and makes the IP Public exactly at the cap |
| GoalmaxBuyout.PayOnce | programs/poip/src/contracts/goalmax_buyout.rs:64-67 | A signer pays a campaign once: paying again fails with AccountAlreadyInUse |
| GoalmaxBuyout.PayCapped | programs/poip/src/contracts/goalmax_buyout.rs:105 | On a sound store a goal/max campaign never counts past its cap, and a pay at the cap fails |
| GoalmaxBuyout.Withdraw | programs/poip/src/contracts/goalmax_buyout.rs:157-182 | Keeps the store invariant and applies `WithdrawStep` as a transaction: the signer must be the IP's owner, then the unchecked draw count, the no-funds `require!` and the token transfer |
| GoalmaxBuyout.WithdrawOwnerOnly | programs/poip/src/contracts/goalmax_buyout.rs:140 | A withdraw succeeds only for the IP's owner; anyone else gets ConstraintRaw before any arithmetic |
| GoalmaxBuyout.WithdrawOnce | programs/poip/src/contracts/goalmax_buyout.rs:159-164 | A second withdraw straight after a successful one fails with ContractHasNoLamports, whatever its destination |
| GoalmaxBuyout.WithdrawSound | programs/poip/src/contracts/goalmax_buyout.rs:157-182 | A successful withdraw keeps the store sound |
| GoalmaxBuyout.WithdrawSafe | programs/poip/src/contracts/goalmax_buyout.rs:159-179 | On a sound store a withdraw never overflows and the campaign's token account always covers it |
| GoalmaxBuyout.WithdrawDraws | programs/poip/src/contracts/goalmax_buyout.rs:159-179 | A withdraw brings the drawn count to `min(curr, goal)` and moves exactly the undrawn units' price from the campaign's token account to the destination; every other token balance and every other record and balance map is unchanged |
| GoalmaxBuyout.DrawCovered | programs/poip/src/contracts/goalmax_buyout.rs:159-163 | On a sound store `min(curr, goal) - withdrawal_count` never underflows and its price fits in a `u64` |
| GoalmaxBuyout.BonusAmount | programs/poip/src/contracts/goalmax_buyout.rs:216-223 | A positive bonus tops the record up to exactly the current share; otherwise it is MathFailure or ContractHasNoLamports |
| GoalmaxBuyout.BonusTopsUp | programs/poip/src/contracts/goalmax_buyout.rs:216-223 | MathFailure happens exactly when `surplus * price` overflows a `u64`; otherwise a bonus is owed iff the record is below the share |
| GoalmaxBuyout.NoMathFailure | programs/poip/src/contracts/goalmax_buyout.rs:217 | On a sound campaign the `checked_mul` never fails |
| GoalmaxBuyout.Bonus | programs/poip/src/contracts/goalmax_buyout.rs:212-243 | Keeps the store invariant and applies `BonusStep` as a transaction: account checks, the amount, the token transfer to the destination and the record update |
| GoalmaxBuyout.BonusPayersOnly | programs/poip/src/contracts/goalmax_buyout.rs:192-193 | Only a signer with a payment record in the campaign can claim; anyone else gets AccountNotInitialized |
| GoalmaxBuyout.BonusSound | programs/poip/src/contracts/goalmax_buyout.rs:212-243 | A successful bonus keeps the store sound |
| GoalmaxBuyout.BonusSafe | programs/poip/src/contracts/goalmax_buyout.rs:217-240 | On a sound store a bonus never fails with MathFailure, and the campaign's token account always covers it |
| GoalmaxBuyout.BonusTopsUpRecord | programs/poip/src/contracts/goalmax_buyout.rs:225-240 | A bonus leaves the payer's record at exactly the current share and moves the difference from the campaign's token account to the destination; every other payment record, every other token balance and every other record and balance map is unchanged |
| GoalmaxBuyout.TopUpCovered | programs/poip/src/contracts/goalmax_buyout.rs:216-240 | On a sound store a payer's bonus never fails with MathFailure and never exceeds the escrow |
| GoalmaxBuyout.BonusIdempotent | programs/poip/src/contracts/goalmax_buyout.rs:221-223 | Claiming a bonus again at the same count fails with ContractHasNoLamports |
| CompensativeBuyout.Publish | programs/poip/src/contracts/compensative_buyout.rs:6-23 | Keeps the store invariant and applies `PublishStep` as a transaction: account checks (`state.rs:112-131`), the owner constraints, then the three `require!`s; the campaign is compensative with no cap |
| CompensativeBuyout.PublishSound | programs/poip/src/contracts/compensative_buyout.rs:6-23 | A successful publish keeps the store sound |
| CompensativeBuyout.PublishOpens | programs/poip/src/contracts/compensative_buyout.rs:10-20 | Publish succeeds iff the IP and the owner user record exist, the IP names that record, the record names the signer, the IP is Private and price and goal are positive; the campaign has maxcount 0, no payers, and the IP becomes Published |
| CompensativeBuyout.PublishOnce | programs/poip/src/state.rs:115-118 | A second publish on the same IP fails with AccountAlreadyInUse |
| CompensativeBuyout.Pay | programs/poip/src/contracts/compensative_buyout.rs:25-49 | Keeps the store invariant and applies `PayStep` as a transaction: account checks (`state.rs:134-162`), the discount, the three `require!`s in order, then the updates and the lamport transfer |
| CompensativeBuyout.PaySound | programs/poip/src/contracts/compensative_buyout.rs:25-49 | A successful pay within the `u64` bound keeps the store sound |
| CompensativeBuyout.PayNoOverflow | programs/poip/src/contracts/compensative_buyout.rs:30-32 | Within the `u64` bound the discount's unchecked arithmetic never aborts |
| CompensativeBuyout.PayCharges | programs/poip/src/contracts/compensative_buyout.rs:34-48 | A pay raises the count by one, records the share at the new count, leaves a credit record, and moves price minus the discount (0 < charge <= price) from the signer's wallet to the campaign |
| CompensativeBuyout.PayOnce | programs/poip/src/state.rs:137-146 | A user pays a campaign once: paying again fails with AccountAlreadyInUse |
| CompensativeBuyout.PayUncapped | programs/poip/src/contracts/compensative_buyout.rs:34-36 | Nothing caps a compensative campaign: on a sound store, within the `u64` bound on pays (`PayFits`), a new payer with a user record and enough lamports is accepted on a Published campaign at any count |
| CompensativeBuyout.Withdraw | programs/poip/src/contracts/compensative_buyout.rs:51-64 | Keeps the store invariant and applies `WithdrawStep` as a transaction: account checks and owner constraints (`state.rs:165-181`), the unchecked draw count, the two `require!`s, then the lamport move to the owner record |
| CompensativeBuyout.WithdrawOwnerOnly | programs/poip/src/state.rs:174-178 | A withdraw succeeds only through the user record that owns the IP and names the signer; otherwise ConstraintRaw before any arithmetic |
| CompensativeBuyout.WithdrawOnce | programs/poip/src/contracts/compensative_buyout.rs:53-59 | A second withdraw straight after a successful one fails with ContractHasNoLamports |
| CompensativeBuyout.WithdrawSound | programs/poip/src/contracts/compensative_buyout.rs:51-64 | A successful withdraw keeps the store sound |
| CompensativeBuyout.WithdrawNoOverflow | programs/poip/src/contracts/compensative_buyout.rs:54-61 | On a sound store none of the unchecked `u64` operations or lamport debits of a withdraw aborts |
| CompensativeBuyout.WithdrawDraws | programs/poip/src/contracts/compensative_buyout.rs:59-61 | A withdraw brings the drawn count to `min(curr, goal)` and moves exactly the undrawn units' price from the campaign record to the owner record; every other lamport balance and every other record and balance map is unchanged |
| CompensativeBuyout.Owed | programs/poip/src/contracts/compensative_buyout.rs:70-72 | What bonus owes: 0 up to the goal; past it, the amount that tops the record up to the share, or ArithmeticOverflow |
| CompensativeBuyout.OwedNoOverflow | programs/poip/src/contracts/compensative_buyout.rs:70-72 | On a sound campaign the amount owed is exactly the share minus what the record holds |
| CompensativeBuyout.Bonus | programs/poip/src/contracts/compensative_buyout.rs:66-82 | Keeps the store invariant and applies `BonusStep` as a transaction: account checks (`state.rs:183-199`), the amount owed, the two `require!`s, the lamport move to the user record and the record update |
| CompensativeBuyout.BonusPayersOnly | programs/poip/src/state.rs:189-193 | Only a signer whose user record has a payment record in the campaign can claim; anyone else gets AccountNotInitialized |
| CompensativeBuyout.BonusSound | programs/poip/src/contracts/compensative_buyout.rs:66-82 | A successful bonus keeps the store sound |
| CompensativeBuyout.BonusNoOverflow | programs/poip/src/contracts/compensative_buyout.rs:70-79 | On a sound store none of the unchecked operations of a bonus aborts |
| CompensativeBuyout.BonusTopsUpRecord | programs/poip/src/contracts/compensative_buyout.rs:74-79 | A bonus is paid only past the goal and below the share; it leaves the record at exactly the share and moves the difference from the campaign to the user record |
| CompensativeBuyout.BonusIdempotent | programs/poip/src/contracts/compensative_buyout.rs:70-74 | Claiming a bonus again at the same count fails with ContractHasNoLamports |
| CompensativeBuyout.TwentyPayersGoalFive | programs/poip/src/contracts/compensative_buyout.rs:70-79 | With twenty payers and a goal of five, a claim leaves the payer holding `15 * price / 20` |
| FiniteBuyout.Issue | programs/poip/src/contracts/finite_buyout.rs:4-47 | Keeps the store invariant and applies `IssueStep` as a transaction: the contract record, naming the IP number, at seeds of the author and the price (the first handler argument, which `#[instruction(ipid: u64)]` decodes), with no heads counted |
| FiniteBuyout.IssueSound | programs/poip/src/contracts/finite_buyout.rs:4-14 | A successful issue keeps the store sound |
| FiniteBuyout.IssueOpens | programs/poip/src/contracts/finite_buyout.rs:4-47 | An issue succeeds iff the author has no contract at the seeds of that price, for any IP number and head count; the contract names the author and IP number, counts no heads and has no buyers; no other contract, buyer group, record or balance changes |
| FiniteBuyout.IssueOnce | programs/poip/src/contracts/finite_buyout.rs:36-47 | A contract is issued once per author and price: a second issue at that price fails with AccountAlreadyInUse, whatever its IP number |
| FiniteBuyout.IssueTwicePerIp | programs/poip/src/contracts/finite_buyout.rs:37-41 | One author issues two contracts for one IP number at two prices, and a buy under that IP number finds neither |
| FiniteBuyout.IssueByIp | programs/poip/src/contracts/finite_buyout.rs:4-47 | Keeps the store invariant and applies `IssueByIpStep` as a transaction: the handler with the contract at seeds of the author and the IP number |
| FiniteBuyout.IssueByIpSound | programs/poip/src/contracts/finite_buyout.rs:4-14 | The corrected issue keeps the store sound |
| FiniteBuyout.IssueByIpOnce | programs/poip/src/contracts/finite_buyout.rs:36-52 | With the intended seeds a contract is issued once per author and IP number; a first buyer under that IP number with the price reaches it; where price and IP number coincide it equals the handler as written |
| FiniteBuyout.Buy | programs/poip/src/contracts/finite_buyout.rs:16-32 | Keeps the store invariant and applies `BuyStep` as a transaction: the contract must exist and the buyer record be free (lines 49-62), then the two `require!`s, the counters and the lamport transfer |
| FiniteBuyout.BuySound | programs/poip/src/contracts/finite_buyout.rs:16-32 | A successful buy keeps the store sound |
| FiniteBuyout.BuyAccepts | programs/poip/src/contracts/finite_buyout.rs:20-24 | A buy succeeds iff the contract exists, the signer has not bought it, the signer's wallet holds the price, and fewer heads than the goal are counted |
| FiniteBuyout.BuyCounts | programs/poip/src/contracts/finite_buyout.rs:26-31 | A buy counts one more head, records the buyer, moves exactly the price from the buyer's wallet to the contract, and changes no other record or balance |
| FiniteBuyout.BuyOnce | programs/poip/src/contracts/finite_buyout.rs:49-62 | Each buyer is counted once: buying again fails with AccountAlreadyInUse |
| FiniteBuyout.NoHeadsNoBuyers | programs/poip/src/contracts/finite_buyout.rs:4-24 | A contract issued with a goal of 0 heads refuses every buyer who reaches its seeds |
| FiniteBuyout.ContractAt | programs/poip/src/contracts/finite_buyout.rs:16-32 | On a sound store a contract never counts past its goal, has one buyer record per head, and holds the price of every head |
| Registry.PrivateHasNoCampaign | programs/poip/src/state.rs:8-10 | On a sound store a Private IP has no campaign |
| Registry.CreateUserAccount | programs/poip/src/contracts/general.rs:6-8 | Keeps the store invariant and applies `CreateUserStep` as a transaction: the signer's user record, left at its default contents |
| Registry.CreateUserOpens | programs/poip/src/state.rs:56-67 | A user record is created iff the signer has none; it holds the empty name and the zero key; every other user record and every other record and balance map is unchanged |
| Registry.CreateUserOnce | programs/poip/src/state.rs:59-62 | A user record is created once per signer |
| Registry.DeleteUserAccount | programs/poip/src/contracts/general.rs:10-12 | Keeps the store invariant and applies `DeleteUserStep` as a transaction: the record is closed and its lamports go to the signer |
| Registry.DeleteUserSound | programs/poip/src/state.rs:69-79 | Deleting a user record keeps the store sound |
| Registry.DeleteUserCloses | programs/poip/src/state.rs:69-79 | A user record is deleted iff it exists; it is gone afterwards, its balance moved to the signer's wallet, and no other record or balance changes |
| Registry.CreateThenDeleteUser | programs/poip/src/state.rs:56-79 | Deleting the user record just created restores the user records |
| Registry.CreateIpAccount | programs/poip/src/contracts/general.rs:14-21 | Keeps the store invariant and applies `CreateIpStep` as a transaction: a signer with a user record registers a Private IP under a free id, owned by the signer's key |
| Registry.CreateIpSound | programs/poip/src/contracts/general.rs:14-21 | Registering an IP keeps the store sound |
| Registry.CreateIpOpens | programs/poip/src/state.rs:81-94 | An IP is registered iff the signer has a user record and the id is free; the record holds the id, the title, the signer's key and Private, and no other record or balance changes |
| Registry.CreateIpOnce | programs/poip/src/state.rs:84-87 | An IP record is created once per id, whoever tries again |
| Registry.CreatedIpNotCompensative | programs/poip/src/contracts/general.rs:17 | An IP registered here names a wallet as its owner, so no compensative publish can ever succeed on it |
| Registry.DeleteIpAccount | programs/poip/src/contracts/general.rs:23-26 | Keeps the store invariant and applies `DeleteIpStep` as a transaction: any signer with a user record deletes any Private IP |
| Registry.DeleteIpSound | programs/poip/src/contracts/general.rs:23-26 | Deleting a Private IP keeps the store sound |
| Registry.DeleteIpCloses | programs/poip/src/contracts/general.rs:23-26 | An IP is deleted iff it exists, the signer has a user record and the IP is Private (otherwise WrongIPOwnership); only that record goes, and no other record or balance changes |
| Registry.CampaignIpKept | programs/poip/src/contracts/general.rs:24 | On a sound store no IP that has a campaign can be deleted |
| Registry.CreateThenDeleteIp | programs/poip/src/state.rs:81-110 | Deleting the IP just registered frees its id again |
| Registry.StrangerDeletes | programs/poip/src/state.rs:96-110 | Any other signer with a user record can delete an IP someone just registered |
| Registry.OnlyOwnerDeletes | programs/poip/src/contracts/general.rs:23-26 | With the owner check only the IP's owner deletes it, the owner deletes as before, and anyone else gets ConstraintRaw |
| Registry.DeleteOwnIpSound | programs/poip/src/contracts/general.rs:23-26 | The corrected delete keeps the store sound |
| Registry.DeleteOwnIpAccount | programs/poip/src/contracts/general.rs:23-26 | Keeps the store invariant and applies `DeleteOwnIpStep` as a transaction: the handler with the owner check it lacks, failing with ConstraintRaw for anyone but the IP's owner |
| EarlyRegistry.CreateUserAccount | programs/poip/src/general.rs:4-8 | Keeps the store invariant and applies `CreateUserStep` as a transaction: the user record holds the chosen name and the signer's key |
| EarlyRegistry.CreateUserOpens | programs/poip/src/general.rs:4-8 | A user record is created iff the signer has none; it holds the name given and the signer's key; every other user record and every other record and balance map is unchanged |
| EarlyRegistry.CreateUserOnce | programs/poip/src/general.rs:29-40 | A user record is created once per signer, whatever name is asked for |
| EarlyRegistry.CreateIpAccount | programs/poip/src/general.rs:14-21 | Keeps the store invariant and applies `CreateIpStep` as a transaction: the new IP is owned by the signer's user record |
| EarlyRegistry.CreateIpSound | programs/poip/src/general.rs:14-21 | Registering an IP keeps the store sound |
| EarlyRegistry.CreateIpOwnedByUserRecord | programs/poip/src/general.rs:17 | This registry accepts and refuses exactly as the later one, and records the same IP except that the owner is the user record rather than the key |
| EarlyRegistry.CreateIpOnce | programs/poip/src/general.rs:54-67 | An IP record is created once per id |
| EarlyRegistry.RegistrantPublishes | programs/poip/src/general.rs:4-21 | A registrant who creates a user record and an IP can then publish a compensative campaign on it through that user record |
| Program.ExecuteSound | programs/poip/src/state.rs:12-54 | Every instruction that succeeds within the `u64` bound on pays (`Fits`) keeps the store sound, the handlers as written and their corrected forms alike |
| Program.ExecuteNoRegress | programs/poip/src/state.rs:8-10 | Every successful instruction leaves each remaining IP's ownership unchanged, Private to Published, or Published to Public, deletes only Private IPs, and so never moves an IP backwards |
| Program.RunSound | programs/poip/src/state.rs:12-54 | Any run of transactions from a sound store, each within the `u64` bound, ends in a sound store |
| Program.Step | programs/poip/src/state.rs:12-54 | The ledger running any instruction keeps its invariant and applies it atomically |

## Left out

- Rent, bumps, account sizes and the system and token programs are not
  modelled. Creating a record costs no lamports in the model, and closing a
  record returns only the balance the model tracks for it.
- Mints and token accounts are collapsed into one token balance per address.
  A goal/max payer pays from the signer's own token balance. The
  withdraw/bonus destination is any address: the source does not tie
  `owner_token_account` or `user_token_account` to anyone.
- Signatures and `Signer` checks are not modelled: the signer is a
  parameter.
- IP identifiers (a `String` in the registry, a `Pubkey` in goal/max, a
  `u64` in finite buyout) are all abstracted to a number, and PDA seeds
  become constructors of `Address`. Seed collisions and the length limits
  of seeds are not modelled.
- `lib.rs` and `poip.rs` contain no logic. They dispatch to handlers of
  another snapshot (`cb_issue`, `lcb_buy` and the like) whose modules are
  not part of this model. `Program.Execute` dispatches the handlers modelled
  here instead. The TypeScript client and tests are not part of this model.
- GoalmaxBuyout.Pay: requires `(curr + 1) * price < 2^64` (`Store.PayFits`).
  `PayStep` itself is modelled for every input, including the abort when
  the discount's product wraps. The bound excludes pays that the source
  accepts, for example price `2^63`, goal 5 and one unit already sold.
  After such a pay `curr * price` no longer fits in a `u64`, so the source's
  later withdraw or bonus can wrap. The bound stands in for the `u64`
  limit of real balances. `Sound` relies on it, and so do
  `GoalmaxBuyout.WithdrawSafe`, `GoalmaxBuyout.DrawCovered`,
  `GoalmaxBuyout.NoMathFailure`, `GoalmaxBuyout.BonusSafe`,
  `CompensativeBuyout.WithdrawNoOverflow`, `CompensativeBuyout.OwedNoOverflow`
  and `CompensativeBuyout.BonusNoOverflow`. `PaySound`, `Program.Fits`,
  `Program.RunSound` and `Program.Step` carry the same bound.
- CompensativeBuyout.Pay: the same `u64` bound as for goal/max pay, with the
  same pays excluded.
- The `+= 1` of counters, and lamport and token credits, cannot overflow in
  the model: balances are unbounded `nat`s. Only the operations that can
  wrap on realistic inputs are modelled as aborting.
- CompensativeBuyout.Publish: Anchor decodes an accounts struct's
  `#[instruction(..)]` list from the front of the handler's arguments.
  `state.rs:113` lists `(price, goalcount, maxcount, ipid)`, but the handler
  at `contracts/compensative_buyout.rs:6` takes `(_ipid, price, goalcount,
  _maxcount)`. The seeds' `ipid` would be read from the bytes of the other
  arguments. The model passes the arguments by name instead, and seeds the
  records by the `ipid` argument.
- Registry.CreateUserAccount: `state.rs:57` declares
  `#[instruction(username: String)]` for a handler
  (`contracts/general.rs:6`) that takes no arguments. Decoding would need a
  `username` the instruction does not carry. The model needs none.
- `state.rs` and `general.rs` declare no `InvalidGoalcount`,
  `InvalidMaxcount` or `MathFailure`, although the handlers use them. The
  model gives them those names.
- `general.rs`'s `Pay` accounts lack the credit record that `state.rs`'s
  have. The compensative pay is modelled once, with the credit record.
- The two snapshots lay out the campaign record differently. The model uses
  one record with the union of the fields; fields a handler never writes
  stay 0.
- A goal/max withdraw or bonus on a compensative campaign has no meaning in
  either snapshot. A compensative IP is owned by a user record, so a
  goal/max withdraw on it fails the owner constraint (ConstraintRaw).
  Its payment records are keyed by user records, so a goal/max bonus finds
  no record under the signer's wallet (AccountNotInitialized). `Sound` does
  not carry these two facts about owners and payment keys. On a store where
  they fail, the goal/max checks would pass and tokens would move that the
  campaign does not hold. `WithdrawSound` and `BonusSound` hold either way,
  because a compensative escrow is lamports.
- The early registry's `delete_user_account` and `delete_ip_account`, and
  its account declarations, match the later registry's. They are modelled
  once, in `Registry`.
- Program.ExecuteSound: it requires the `u64` bound on a pay (`Fits`), for
  the reason given under `GoalmaxBuyout.Pay`.
- Program.RunSound: it takes the `u64` bound on every pay of the run
  (`RunFits`) as a hypothesis.
- Program.Step: it takes the same `u64` bound for a pay (`Fits`) as a
  precondition.

## Findings

| source | as written | input that shows it | evidently intended | confidence | as-written member | corrected member |
|---|---|---|---|---|---|---|
| programs/poip/src/contracts/general.rs:23-26 | `delete_ip_account` closes the IP record for any signer who has a user record; the account declaration (`state.rs:96-110`) never compares the signer with the IP's owner | user A registers IP 7; user B, with a user record of B's own, sends `delete_ip_account("7")`, and IP 7 is gone | only the IP's owner may delete it | not executed | Registry.StrangerDeletes | Registry.OnlyOwnerDeletes |
| programs/poip/src/contracts/goalmax_buyout.rs:8-37 | the goal/max `Publish` accounts declare no constraint between the signer and `ip_account.owner`, unlike `Withdraw` (line 140) | A registers IP 7 and leaves it Private; B sends `publish(7, mint, 1, 1, 1)` and IP 7 is Published at B's price, so A can no longer delete or republish it | only the IP's owner may publish it | not executed | GoalmaxBuyout.StrangerPublishes | GoalmaxBuyout.OnlyOwnerPublishes |
| programs/poip/src/contracts/finite_buyout.rs:37-41 | `FBIssue` declares `#[instruction(ipid: u64)]`, which Anchor decodes from the first handler argument, `price` (line 4), so the contract's seeds are ["fb-contract", author, price] | the author sends `issue(100, 3, 7)` and then `issue(200, 3, 7)`: both succeed, giving two contracts for IP 7, and `buy(author, 7)` finds neither | seeds ["fb-contract", author, ipid], where `buy` looks | not executed | FiniteBuyout.IssueTwicePerIp | FiniteBuyout.IssueByIpOnce |
