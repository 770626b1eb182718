/**
 The user directory of the ATM: a user owns accounts keyed by account
 number and authenticates by PIN; the ATM keeps users keyed by name and
 decides whether a login and account selection succeed.
 */
module Directory {
  import opened Accounts

  datatype Option<+T> = None | Some(value: T)

  /** The accounts map after putting `accs` into `m` one after the other,
      as repeated `addAccount` calls do. */
  function PutAll(m: map<string, Account>, accs: seq<Account>): map<string, Account>
    decreases |accs|
  {
    if accs == [] then m
    else PutAll(m, accs[..|accs| - 1])[accs[|accs| - 1].number := accs[|accs| - 1]]
  }

  /** The position of the last account in `accs` that carries `number`, if any. */
  function LastIndexWithNumber(accs: seq<Account>, number: string): (r: Option<nat>)
    ensures r.Some? ==>
      && r.value < |accs| && accs[r.value].number == number
      && forall j :: r.value < j < |accs| ==> accs[j].number != number
    ensures r.None? ==> forall i :: 0 <= i < |accs| ==> accs[i].number != number
    decreases |accs|
  {
    if accs == [] then None
    else if accs[|accs| - 1].number == number then Some(|accs| - 1)
    else LastIndexWithNumber(accs[..|accs| - 1], number)
  }

  /** Put overwrites: after a run of insertions, a number maps to the last
      account inserted under it, and to what it mapped to before only when
      none was. */
  lemma {:induction false} PutAllLastWins(m: map<string, Account>, accs: seq<Account>, number: string)
    ensures LastIndexWithNumber(accs, number).Some? ==>
      number in PutAll(m, accs) && PutAll(m, accs)[number] == accs[LastIndexWithNumber(accs, number).value]
    ensures LastIndexWithNumber(accs, number).None? ==>
      (number in PutAll(m, accs) <==> number in m) &&
      (number in m ==> PutAll(m, accs)[number] == m[number])
    decreases |accs|
  {
    if accs != [] {
      PutAllLastWins(m, accs[..|accs| - 1], number);
    }
  }

  class User {
    const name: string
    const pin: string
    var accounts: map<string, Account>

    /** Every account is filed under its own number. */
    ghost predicate Valid()
      reads this
    {
      forall k :: k in accounts ==> accounts[k].number == k
    }

    constructor (name: string, pin: string)
      ensures this.name == name && this.pin == pin
      ensures accounts == map[] && Valid()
    {
      this.name := name;
      this.pin := pin;
      accounts := map[];
    }

    /** `addAccount`: files the account under its number, replacing any
        account already filed there. */
    method AddAccount(account: Account)
      requires Valid()
      modifies this
      ensures Valid()
      ensures accounts == old(accounts)[account.number := account]
    {
      accounts := accounts[account.number := account];
    }

    /** `getAccount`: the account filed under `number`, or nothing. */
    function GetAccount(number: string): (r: Option<Account>)
      reads this
      ensures r.Some? <==> number in accounts
      ensures r.Some? ==> r.value == accounts[number]
      ensures Valid() && r.Some? ==> r.value.number == number
    {
      if number in accounts then Some(accounts[number]) else None
    }

    /** `authenticate`: true exactly when the PIN entered is the stored one. */
    function Authenticate(entered: string): (ok: bool)
      ensures ok <==> entered == pin
    {
      pin == entered
    }
  }

  /** How the login and account-selection steps of a session end. */
  datatype Login =
    | UserNotFound
    | InvalidPin
    | InvalidAccount
    | LoggedIn(user: User, account: Account)

  class Atm {
    var users: map<string, User>

    /** Every user is filed under their own name and is valid. */
    ghost predicate Valid()
      reads this, users.Values
    {
      forall n :: n in users ==> users[n].name == n && users[n].Valid()
    }

    constructor ()
      ensures users == map[] && Valid()
    {
      users := map[];
    }

    /** `registerUser`: files the user under their name, replacing any user
        already filed there. */
    method RegisterUser(user: User)
      requires Valid() && user.Valid()
      modifies this
      ensures Valid()
      ensures users == old(users)[user.name := user]
    {
      users := users[user.name := user];
    }

    /** The decision the session makes before its menu: look the user up by
        name, check the PIN, then look the chosen account up in that user's
        accounts. Each check runs only when the previous one passed. */
    function LoginOutcome(name: string, pin: string, number: string): (o: Login)
      reads this, users.Values
      ensures o.UserNotFound? <==> name !in users
      ensures o.InvalidPin? <==> name in users && pin != users[name].pin
      ensures o.InvalidAccount? <==>
        name in users && pin == users[name].pin && number !in users[name].accounts
      ensures o.LoggedIn? ==>
        && o.user == users[name]
        && number in o.user.accounts
        && o.account == o.user.accounts[number]
      ensures Valid() && o.LoggedIn? ==> o.user.name == name && o.account.number == number
    {
      if name !in users then UserNotFound
      else
        var user := users[name];
        if !user.Authenticate(pin) then InvalidPin
        else
          match user.GetAccount(number)
          case None => InvalidAccount
          case Some(account) => LoggedIn(user, account)
    }
  }
}
