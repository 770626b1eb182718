# ATM account model in Dafny

A model of the account and transaction domain of a console ATM simulation
(`ATMApp.java`). A user, found by name and checked by PIN, owns accounts keyed
by account number. Each account is either a Checking account, which
refuses any withdrawal that would take it below -100.00, or a Savings
account, which caps a single withdrawal at 500.00 and refuses any
withdrawal that would take it below zero. Deposits always succeed.
A transfer first checks the amount against the source's raw balance. It then
runs the source's own withdrawal, deposits into the target, and logs an extra
transfer record on the source. Every completed operation appends to the
account's history.

Layout:

- `account.dfy`, module `Accounts`. The value-level specification sits on
  `Ledger`, the balance plus the history. It has `LedgerDeposit`,
  `LedgerWithdraw`, `LedgerTransfer` and `LedgerSelfTransfer`. The `Account`
  class updates `balance` and `history` in place, and its methods are proved
  to follow those functions. The two Java subclasses become one class with a
  `kind` constant, and `Withdraw` dispatches on it.
- `directory.dfy`, module `Directory`. It holds the `User` class (accounts
  map, PIN check) and the `Atm` class (users map). It also holds the
  login/account-selection decision of `ATM.start` as the function
  `Atm.LoginOutcome`.
- `session.dfy`, module `Session`. It holds the transfer command of the
  menu, which looks the target up among the same user's accounts. It also
  holds the startup data of `main` and four scenario methods that exercise
  the contracts: login outcomes, the withdrawal rules on the startup
  accounts, and a completed and a refused transfer.

Modelling decisions:

- Amounts are integers counting cents. The overdraft limit is `10000` and
  the savings cap is `50000`. Every rule is then an exact integer comparison.
- Exceptions become a `Refusal` value, one constructor per distinct message
  of `InsufficientFundsException`. Methods return `Outcome` (`Done` or
  `Refused(reason)`).
- History entries are the datatype `Record`: `Deposited(a)`, `Withdrawn(a)`
  and `Transferred(a, to)`.
- Amounts are not required to be non-negative, because the source never
  checks them. So a negative deposit, or the deposit half of a negative
  transfer, lowers the balance. That can take a Savings account below zero,
  or a Checking account below -100.00, and the model allows it as the code
  does.
- Each `Account` carries a ghost constant `opening`, the balance it was
  created with. Its invariant `Valid()` says `Opening(State()) == opening`,
  where `Opening(l) = balance - Net(history)`: the history explains the
  balance exactly. The constructor establishes it and `Deposit`, `Withdraw`
  and `Transfer` (on both accounts) keep it, because every `Ledger`
  operation keeps `Opening` fixed. A `Transferred` record has no
  effect of its own, because the `Withdrawn` record logged just before it
  already covers the money sent.
- After 50.00 is deposited into the 1000.00 Checking account, one might
  expect a withdrawal of 1150.00 to fail against a 1100.00 capacity. The code refuses
  only when `balance + 100 < amount`, and `1050 + 100 < 1150` is false. So the
  model follows the code: the withdrawal succeeds and leaves -100.00
  (`Session.WithdrawScenario`).
- The transfer pre-check (`amount > balance`) is kept stricter than the
  Checking overdraft rule, as the code has it
  (`Accounts.CheckingTransferStricterThanWithdraw`).
- A transfer whose target is the source itself is modelled separately. The
  lookup of the target account does not exclude the selected account. In that
  case the balance ends unchanged and the history gains `Withdrawn`,
  `Deposited` and `Transferred`.

## Model

| member | source | states |
|---|---|---|
| `Accounts.NetAppend` | ATMApp.java:28-30 | appending a record adds exactly that record's effect to the net change the history accounts for |
| `Accounts.Commit` | ATMApp.java:29-30 | committing a record appends exactly it to the history, moves the balance by its effect, and keeps the opening balance the history implies |
| `Accounts.LedgerDeposit` | ATMApp.java:28-30 | a deposit raises the balance by the amount, whatever its sign, appends exactly one `Deposited(amount)` record and keeps the ledger consistent |
| `Accounts.LedgerWithdraw` | ATMApp.java:61-90 | a withdrawal succeeds iff the result stays at or above the kind's floor (-100.00 Checking, 0 Savings) and, for Savings, the amount is at most 500.00. On success it debits the amount and appends exactly one `Withdrawn`. Checking failures are `OverdraftExceeded`. Savings above the cap fails with `SavingsLimitExceeded` regardless of balance, and otherwise fails with `SavingsInsufficient` when the balance is short |
| `Accounts.LedgerTransfer` | ATMApp.java:34-42 | a transfer between distinct accounts succeeds iff amount <= source balance and, for Savings, amount <= 500.00. On success the source loses the amount and the target gains it, so the sum is conserved. The source history gains `Withdrawn` then `Transferred(amount, target number)`, and the target gains one `Deposited`. The pre-check failure is `TransferInsufficient`, and the Savings cap inside withdraw is `SavingsLimitExceeded` |
| `Accounts.LedgerSelfTransfer` | ATMApp.java:34-42 | a transfer to the account itself succeeds under the same condition. It leaves the balance unchanged, appends `Withdrawn`, `Deposited`, `Transferred` in that order and keeps the opening balance the history implies, with the same refusals as a transfer between distinct accounts |
| `Accounts.CheckingTransferStricterThanWithdraw` | ATMApp.java:35-38 | every Checking transfer that succeeds would also succeed as a plain withdrawal. An amount between the balance and balance + 100.00 is withdrawable but refused by transfer with `TransferInsufficient` |
| `Accounts.NetOfDeposits` | ATMApp.java:28-30 | the `Deposited` records a run of deposits leaves add up to exactly the sum of its amounts, so the history keeps explaining the balance |
| `Accounts.DepositsAccumulate` | ATMApp.java:28-30 | successive deposits leave balance = initial + sum of the amounts, and append one `Deposited` per amount in order |
| `Accounts.Account.constructor` | ATMApp.java:17-22 | a new account has the given kind, number, holder and balance, an empty history, and that balance as its opening balance, so the invariant holds |
| `Accounts.Account.GetBalance` | ATMApp.java:24-26 | on an account satisfying its invariant, the balance read is the balance it was created with plus the net effect of every record in its history |
| `Accounts.Account.Deposit` | ATMApp.java:28-32 | the new state is `LedgerDeposit` of the old one, so the balance rises by the amount and exactly one `Deposited(amount)` is appended. The invariant is kept |
| `Accounts.Account.Withdraw` | ATMApp.java:61-90 | the outcome is that of `LedgerWithdraw` for the account's kind. On success the state is its result, and on refusal balance and history are unchanged. The invariant is kept |
| `Accounts.Account.Transfer` | ATMApp.java:34-42 | when the target is another account, both new states and the outcome are those of `LedgerTransfer`, and a refusal leaves both accounts untouched. When the target is this account, the state and outcome are those of `LedgerSelfTransfer`. Both accounts keep the invariant |
| `Directory.LastIndexWithNumber` | ATMApp.java:114-116 | the position returned holds an account carrying the number, and no later position does. When there is none, no account in the sequence carries that number |
| `Directory.PutAllLastWins` | ATMApp.java:114-120 | after a run of `addAccount` calls, a number maps to the last account added under it, and to its earlier entry only when none was added |
| `Directory.User.constructor` | ATMApp.java:104-108 | a new user has the given name and PIN and no accounts |
| `Directory.User.AddAccount` | ATMApp.java:114-116 | the accounts map becomes the old one with the account filed under its own number, overwriting any earlier one, and every account stays filed under its own number |
| `Directory.User.GetAccount` | ATMApp.java:118-120 | returns the account filed under the number, or nothing exactly when the number is not in the map. A returned account carries that number |
| `Directory.User.Authenticate` | ATMApp.java:122-124 | true exactly when the PIN entered equals the stored PIN |
| `Directory.Atm.constructor` | ATMApp.java:138-141 | a new ATM has no users |
| `Directory.Atm.RegisterUser` | ATMApp.java:143-145 | the users map becomes the old one with the user filed under their name, overwriting any earlier one |
| `Directory.Atm.LoginOutcome` | ATMApp.java:151-175 | the outcome is `UserNotFound` iff the name is unknown. It is `InvalidPin` iff the user exists and the PIN differs, and `InvalidAccount` iff the PIN matches and the account number is not that user's. Otherwise it is `LoggedIn` with that user and the account filed under the number, which carries that number |
| `Session.TransferCommand` | ATMApp.java:203-213 | an unknown target number answers `InvalidTarget` and changes nothing. Otherwise the target is the selected account exactly when its number was entered, and the transfer follows `LedgerTransfer` or `LedgerSelfTransfer` accordingly. No other account of the user changes, and every account of the user keeps its invariant |
| `Session.Startup` | ATMApp.java:235-243 | the startup data: Alice, PIN 1234, with Checking `CHK123` at 1000.00 and Savings `SAV123` at 5000.00, both held by Alice, freshly created and satisfying their invariant, registered in a fresh ATM |

## Left out

- Console I/O: every `Scanner` read and `System.out` line, `printTransactionHistory`, `printAccounts`, and the menu loop with its input-error recovery (`ATM.start` after account selection). Only the transfer command's target lookup is modelled, as `Session.TransferCommand`. Balance, deposit and withdraw commands call the account methods directly.
- Floating point: amounts are `double` in the source and whole cents here. Rounding of `double` arithmetic and comparisons is not modelled.
- The text of history lines and of exception messages. Records are a datatype, and refusals are one constructor per message.
- `main` is kept only as the fixed startup data (`Session.Startup`) used by the scenario methods. Closing the scanner is I/O.
- `User.getName` is a plain constant read. The holder is carried as `Account.holder`; its only reader, the history printout, is left out. The `Transactable` interface is subsumed by the `Account` class.
- HashMap iteration order, which affects only `printAccounts`.
- `null` arguments (a null PIN or account) cannot arise in the model. Dafny references here are non-null.
