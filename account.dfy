/**
 The account model of the ATM: two account kinds with their own withdrawal
 policy, deposits, transfers and the append-only transaction history.

 Amounts are whole cents. The value-level functions on `Ledger` (the part of
 an account that operations change) are the specification; the `Account`
 class updates its fields in place and is proved to follow them.
 */
module Accounts {

  /** Why a withdrawal or a transfer was refused: one constructor per
      message the source's InsufficientFundsException carries. */
  datatype Refusal =
    | OverdraftExceeded     // Checking: amount beyond balance plus overdraft
    | SavingsLimitExceeded  // Savings: amount above the per-withdrawal cap
    | SavingsInsufficient   // Savings: amount above the balance
    | TransferInsufficient  // transfer pre-check: amount above the raw balance

  /** What an account operation reports to its caller. */
  datatype Outcome = Done | Refused(reason: Refusal)

  datatype Result<+T> = Success(value: T) | Failure(reason: Refusal) {
    function ToOutcome(): Outcome {
      if Success? then Done else Refused(reason)
    }
  }

  datatype Kind = Checking | Savings

  /** One line of an account's transaction history. */
  datatype Record =
    | Deposited(amount: int)
    | Withdrawn(amount: int)
    | Transferred(amount: int, to: string)

  /** 100.00 and 500.00, in cents. */
  const OverdraftLimit: int := 10000
  const WithdrawalLimit: int := 50000

  /** The lowest balance a withdrawal may leave behind. */
  function Floor(kind: Kind): int {
    match kind
    case Checking => -OverdraftLimit
    case Savings => 0
  }

  /** The mutable part of an account: its balance and its history, oldest first. */
  datatype Ledger = Ledger(balance: int, history: seq<Record>)

  /** How much a record moves the balance. A transfer record moves nothing:
      the money it sent is already accounted for by the Withdrawn record
      logged just before it. */
  function Effect(rec: Record): int {
    match rec
    case Deposited(a) => a
    case Withdrawn(a) => -a
    case Transferred(_, _) => 0
  }

  /** The net change a history accounts for. */
  function Net(h: seq<Record>): int {
    if h == [] then 0 else Effect(h[0]) + Net(h[1..])
  }

  lemma {:induction false} NetAppend(h: seq<Record>, rec: Record)
    ensures Net(h + [rec]) == Net(h) + Effect(rec)
  {
    if h == [] {
      assert [] + [rec] == [rec];
      assert [rec][1..] == [];
    } else {
      assert (h + [rec])[0] == h[0];
      assert (h + [rec])[1..] == h[1..] + [rec];
      NetAppend(h[1..], rec);
    }
  }

  /** The balance the account must have been opened with, given its current
      balance and its history. Every operation keeps it fixed. */
  function Opening(l: Ledger): int {
    l.balance - Net(l.history)
  }

  /** Commits one record: moves the balance by its effect and appends it. */
  function Commit(l: Ledger, rec: Record): (r: Ledger)
    ensures r.history == l.history + [rec]
    ensures r.balance == l.balance + Effect(rec)
    ensures Opening(r) == Opening(l)
  {
    NetAppend(l.history, rec);
    Ledger(l.balance + Effect(rec), l.history + [rec])
  }

  /** `deposit`: always succeeds, whatever the sign of the amount. */
  function LedgerDeposit(l: Ledger, amount: int): (r: Ledger)
    ensures r.balance == l.balance + amount
    ensures r.history == l.history + [Deposited(amount)]
    ensures Opening(r) == Opening(l)
  {
    Commit(l, Deposited(amount))
  }

  /** `withdraw`, dispatched on the account kind. Checking refuses only what
      would take the balance below the overdraft floor; Savings first applies
      the per-withdrawal cap and then refuses a negative result. */
  function LedgerWithdraw(kind: Kind, l: Ledger, amount: int): (r: Result<Ledger>)
    ensures r.Success? <==>
      l.balance - amount >= Floor(kind) && (kind == Savings ==> amount <= WithdrawalLimit)
    ensures r.Success? ==>
      && r.value.balance == l.balance - amount >= Floor(kind)
      && r.value.history == l.history + [Withdrawn(amount)]
      && Opening(r.value) == Opening(l)
    ensures kind == Checking && r.Failure? ==> r.reason == OverdraftExceeded
    ensures kind == Savings && amount > WithdrawalLimit ==> r == Failure(SavingsLimitExceeded)
    ensures kind == Savings && amount <= WithdrawalLimit && l.balance < amount ==>
      r == Failure(SavingsInsufficient)
  {
    match kind
    case Checking =>
      if l.balance + OverdraftLimit < amount then Failure(OverdraftExceeded)
      else Success(Commit(l, Withdrawn(amount)))
    case Savings =>
      if amount > WithdrawalLimit then Failure(SavingsLimitExceeded)
      else if l.balance < amount then Failure(SavingsInsufficient)
      else Success(Commit(l, Withdrawn(amount)))
  }

  /** Whether a transfer of `amount` out of an account of kind `kind` holding
      `balance` goes through: the raw-balance pre-check, then the source's
      own withdrawal policy. */
  predicate TransferAllowed(kind: Kind, balance: int, amount: int) {
    amount <= balance && (kind == Savings ==> amount <= WithdrawalLimit)
  }

  /** `transfer` between two distinct accounts: the pre-check, the source's
      withdrawal, the target's deposit, then the transfer record on the source.
      Yields the new source and target ledgers. */
  function LedgerTransfer(kind: Kind, src: Ledger, dst: Ledger, dstNumber: string, amount: int)
    : (r: Result<(Ledger, Ledger)>)
    ensures r.Success? <==> TransferAllowed(kind, src.balance, amount)
    ensures r.Success? ==>
      && r.value.0.balance == src.balance - amount
      && r.value.1.balance == dst.balance + amount
      && r.value.0.balance + r.value.1.balance == src.balance + dst.balance
      && r.value.0.history == src.history + [Withdrawn(amount), Transferred(amount, dstNumber)]
      && r.value.1.history == dst.history + [Deposited(amount)]
      && Opening(r.value.0) == Opening(src) && Opening(r.value.1) == Opening(dst)
    ensures amount > src.balance ==> r == Failure(TransferInsufficient)
    ensures kind == Savings && amount <= src.balance && amount > WithdrawalLimit ==>
      r == Failure(SavingsLimitExceeded)
  {
    if amount > src.balance then Failure(TransferInsufficient)
    else
      match LedgerWithdraw(kind, src, amount)
      case Failure(e) => Failure(e)
      case Success(debited) =>
        Success((Commit(debited, Transferred(amount, dstNumber)), LedgerDeposit(dst, amount)))
  }

  /** `transfer` with the account itself as target: the withdrawal and the
      deposit land on the same ledger, so the balance ends where it started
      while the history gains three records. */
  function LedgerSelfTransfer(kind: Kind, l: Ledger, ownNumber: string, amount: int)
    : (r: Result<Ledger>)
    ensures r.Success? <==> TransferAllowed(kind, l.balance, amount)
    ensures r.Success? ==>
      && r.value.balance == l.balance
      && r.value.history ==
           l.history + [Withdrawn(amount), Deposited(amount), Transferred(amount, ownNumber)]
      && Opening(r.value) == Opening(l)
    ensures amount > l.balance ==> r == Failure(TransferInsufficient)
    ensures kind == Savings && amount <= l.balance && amount > WithdrawalLimit ==>
      r == Failure(SavingsLimitExceeded)
  {
    if amount > l.balance then Failure(TransferInsufficient)
    else
      match LedgerWithdraw(kind, l, amount)
      case Failure(e) => Failure(e)
      case Success(debited) =>
        Success(Commit(LedgerDeposit(debited, amount), Transferred(amount, ownNumber)))
  }

  /** The transfer pre-check is stricter than a Checking withdrawal: whatever
      a transfer lets through, a plain withdrawal does too, but an amount
      between the balance and the overdraft floor is withdrawable and not
      transferable. */
  lemma CheckingTransferStricterThanWithdraw(l: Ledger, dst: Ledger, dstNumber: string, amount: int)
    ensures LedgerTransfer(Checking, l, dst, dstNumber, amount).Success? ==>
      LedgerWithdraw(Checking, l, amount).Success?
    ensures l.balance < amount <= l.balance + OverdraftLimit ==>
      && LedgerWithdraw(Checking, l, amount).Success?
      && LedgerTransfer(Checking, l, dst, dstNumber, amount) == Failure(TransferInsufficient)
  {
  }

  /** Applies the deposits one after the other. */
  function DepositAll(l: Ledger, amounts: seq<int>): Ledger
    decreases |amounts|
  {
    if amounts == [] then l else DepositAll(LedgerDeposit(l, amounts[0]), amounts[1..])
  }

  function Sum(amounts: seq<int>): int {
    if amounts == [] then 0 else amounts[0] + Sum(amounts[1..])
  }

  /** The records a run of deposits leaves: one `Deposited` per amount, in order. */
  function DepositRecords(amounts: seq<int>): seq<Record> {
    seq(|amounts|, i requires 0 <= i < |amounts| => Deposited(amounts[i]))
  }

  /** The records a run of deposits leaves account for exactly the money it
      added, so a valid account stays valid. */
  lemma {:induction false} NetOfDeposits(amounts: seq<int>)
    ensures Net(DepositRecords(amounts)) == Sum(amounts)
    decreases |amounts|
  {
    if amounts != [] {
      assert DepositRecords(amounts)[1..] == DepositRecords(amounts[1..]);
      NetOfDeposits(amounts[1..]);
    }
  }

  /** Successive deposits add up, and each leaves exactly one record, in order. */
  lemma {:induction false} DepositsAccumulate(l: Ledger, amounts: seq<int>)
    ensures DepositAll(l, amounts) ==
      Ledger(l.balance + Sum(amounts), l.history + DepositRecords(amounts))
    decreases |amounts|
  {
    if amounts == [] {
      assert l.history + DepositRecords(amounts) == l.history;
    } else {
      var next := LedgerDeposit(l, amounts[0]);
      DepositsAccumulate(next, amounts[1..]);
      assert l.history + DepositRecords(amounts) ==
        next.history + DepositRecords(amounts[1..]);
    }
  }

  /** A bank account. `kind` stands for the subclass the source instantiates
      (CheckingAccount or SavingsAccount). */
  class Account {
    const number: string
    const holder: string
    const kind: Kind
    var balance: int
    var history: seq<Record>
    /** The balance the account was created with. */
    ghost const opening: int

    /** The history explains the balance: every change since the account
        was opened is recorded in it. */
    ghost predicate Valid()
      reads this
    {
      Opening(State()) == opening
    }

    constructor (kind: Kind, number: string, holder: string, balance: int)
      ensures this.kind == kind && this.number == number && this.holder == holder
      ensures this.balance == balance && history == [] && opening == balance
      ensures Valid()
    {
      this.kind := kind;
      this.number := number;
      this.holder := holder;
      this.balance := balance;
      history := [];
      opening := balance;
    }

    /** The account's current ledger. */
    function State(): Ledger
      reads this
    {
      Ledger(balance, history)
    }

    /** `getBalance`: on a valid account, the balance read is the opening
        balance plus what the history accounts for. */
    function GetBalance(): (b: int)
      reads this
      ensures Valid() ==> b == opening + Net(history)
    {
      balance
    }

    method Deposit(amount: int)
      requires Valid()
      modifies this
      ensures Valid()
      ensures State() == LedgerDeposit(old(State()), amount)
    {
      NetAppend(history, Deposited(amount));
      balance := balance + amount;
      history := history + [Deposited(amount)];
    }

    method Withdraw(amount: int) returns (r: Outcome)
      requires Valid()
      modifies this
      ensures Valid()
      ensures r == LedgerWithdraw(kind, old(State()), amount).ToOutcome()
      ensures r.Done? ==> State() == LedgerWithdraw(kind, old(State()), amount).value
      ensures r.Refused? ==> State() == old(State())
    {
      match kind {
        case Checking =>
          if balance + OverdraftLimit < amount {
            return Refused(OverdraftExceeded);
          }
        case Savings =>
          if amount > WithdrawalLimit {
            return Refused(SavingsLimitExceeded);
          }
          if balance < amount {
            return Refused(SavingsInsufficient);
          }
      }
      NetAppend(history, Withdrawn(amount));
      balance := balance - amount;
      history := history + [Withdrawn(amount)];
      r := Done;
    }

    /** `transfer`: `to` may be this very account. */
    method Transfer(to: Account, amount: int) returns (r: Outcome)
      requires Valid() && to.Valid()
      modifies this, to
      ensures Valid() && to.Valid()
      ensures to != this ==>
        var spec := LedgerTransfer(kind, old(State()), old(to.State()), to.number, amount);
        && r == spec.ToOutcome()
        && (r.Done? ==> State() == spec.value.0 && to.State() == spec.value.1)
        && (r.Refused? ==> State() == old(State()) && to.State() == old(to.State()))
      ensures to == this ==>
        var spec := LedgerSelfTransfer(kind, old(State()), number, amount);
        && r == spec.ToOutcome()
        && (r.Done? ==> State() == spec.value)
        && (r.Refused? ==> State() == old(State()))
    {
      if amount > balance {
        return Refused(TransferInsufficient);
      }
      r := Withdraw(amount);
      if r.Refused? {
        return;
      }
      to.Deposit(amount);
      NetAppend(history, Transferred(amount, to.number));
      history := history + [Transferred(amount, to.number)];
    }
  }
}
