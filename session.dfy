/**
 What the session asks of the account model once a user has logged in and
 picked an account: the transfer command, whose target is looked up among
 the same user's accounts and so may be the selected account itself.
 */
module Session {
  import opened Accounts
  import opened Directory

  datatype TransferReply = InvalidTarget | Replied(outcome: Outcome)

  /** The transfer command: looks the target up by number in the user's
      accounts, refuses an unknown number without touching anything, and
      otherwise transfers from the selected account. The target is the
      selected account exactly when its number is entered. */
  method TransferCommand(user: User, account: Account, targetNumber: string, amount: int)
    returns (r: TransferReply)
    requires user.Valid() && account in user.accounts.Values
    requires forall a :: a in user.accounts.Values ==> a.Valid()
    modifies account, user.accounts.Values
    ensures forall a :: a in user.accounts.Values ==> a.Valid()
    ensures targetNumber !in user.accounts ==>
      r == InvalidTarget && account.State() == old(account.State())
    ensures targetNumber in user.accounts ==>
      var target := user.accounts[targetNumber];
      && r.Replied?
      && (target == account <==> targetNumber == account.number)
      && (target != account ==>
            var spec := LedgerTransfer(account.kind, old(account.State()),
                                       old(target.State()), targetNumber, amount);
            && r.outcome == spec.ToOutcome()
            && (spec.Success? ==> account.State() == spec.value.0 && target.State() == spec.value.1)
            && (spec.Failure? ==>
                  account.State() == old(account.State()) && target.State() == old(target.State())))
      && (target == account ==>
            var spec := LedgerSelfTransfer(account.kind, old(account.State()), targetNumber, amount);
            && r.outcome == spec.ToOutcome()
            && account.State() == (if spec.Success? then spec.value else old(account.State())))
    ensures forall other ::
      (other in user.accounts.Values && other != account &&
       (targetNumber in user.accounts ==> other != user.accounts[targetNumber])) ==>
        other.State() == old(other.State())
  {
    match user.GetAccount(targetNumber) {
      case None =>
        r := InvalidTarget;
      case Some(target) =>
        var outcome := account.Transfer(target, amount);
        r := Replied(outcome);
    }
  }

  /** The user the program starts with: Alice, PIN 1234, owning a Checking
      account holding 1000.00 and a Savings account holding 5000.00. */
  method Startup() returns (atm: Atm, alice: User, checking: Account, savings: Account)
    ensures atm.Valid() && alice.Valid() && atm.users == map["Alice" := alice]
    ensures alice.name == "Alice" && alice.pin == "1234"
    ensures alice.accounts == map["CHK123" := checking, "SAV123" := savings]
    ensures checking.kind == Checking && checking.number == "CHK123" && checking.State() == Ledger(100000, [])
    ensures savings.kind == Savings && savings.number == "SAV123" && savings.State() == Ledger(500000, [])
    ensures checking.holder == "Alice" && savings.holder == "Alice"
    ensures checking.Valid() && savings.Valid()
    ensures fresh(atm) && fresh(alice) && fresh(checking) && fresh(savings)
  {
    checking := new Account(Checking, "CHK123", "Alice", 100000);
    savings := new Account(Savings, "SAV123", "Alice", 500000);
    alice := new User("Alice", "1234");
    alice.AddAccount(checking);
    alice.AddAccount(savings);
    atm := new Atm();
    atm.RegisterUser(alice);
  }

  method LoginScenario() {
    var atm, alice, checking, savings := Startup();
    assert atm.LoginOutcome("Bob", "1234", "CHK123") == UserNotFound;
    assert atm.LoginOutcome("Alice", "0000", "CHK123") == InvalidPin;
    assert atm.LoginOutcome("Alice", "1234", "XYZ") == InvalidAccount;
    assert atm.LoginOutcome("Alice", "1234", "CHK123") == LoggedIn(alice, checking);
  }

  method WithdrawScenario() {
    var atm, alice, checking, savings := Startup();
    checking.Deposit(5000);
    assert checking.balance == 105000;
    // 1050.00 + 100.00 < 1150.00 is false, so the withdrawal goes through.
    var w := checking.Withdraw(115000);
    assert w == Done && checking.balance == -10000;
    w := checking.Withdraw(1);
    assert w == Refused(OverdraftExceeded) && checking.balance == -10000;

    w := savings.Withdraw(50000);
    assert w == Done && savings.balance == 450000;
    w := savings.Withdraw(50001);
    assert w == Refused(SavingsLimitExceeded) && savings.balance == 450000;
  }

  method TransferScenario() {
    var atm, alice, checking, savings := Startup();
    assert alice.accounts["CHK123"] == checking && alice.accounts["SAV123"] == savings;
    var t := TransferCommand(alice, savings, "CHK123", 20000);
    assert t == Replied(Done);
    assert savings.State() == Ledger(480000, [Withdrawn(20000), Transferred(20000, "CHK123")]);
    assert checking.State() == Ledger(120000, [Deposited(20000)]);
  }

  method RefusedTransferScenario() {
    var atm, alice, checking, savings := Startup();
    assert alice.accounts["SAV123"] == savings;
    var t := TransferCommand(alice, savings, "SAV123", 60000);
    assert t == Replied(Refused(SavingsLimitExceeded));
    assert savings.State() == Ledger(500000, []);
    t := TransferCommand(alice, savings, "NONE", 1);
    assert t == InvalidTarget;
  }
}
