/** The Proxy example: a bank account reached through a proxy that lets only an authenticated
    user deposit or withdraw. Amounts are exact reals; Python's float rounding and the balance
    figures inside the printed messages are not modelled, only which message is printed. */
module Proxy {

  /** What an operation reports. */
  datatype Report = Deposited | Withdrew | InsufficientFunds | AccessDenied

  datatype Operation = Deposit(amount: real) | Withdraw(amount: real)

  /** Reference definition of one operation on the real account: the new balance and the
      report. A withdrawal larger than the balance is refused and changes nothing. */
  function Apply(balance: real, op: Operation): (real, Report)
  {
    match op
    case Deposit(a) => (balance + a, Deposited)
    case Withdraw(a) => if a <= balance then (balance - a, Withdrew) else (balance, InsufficientFunds)
  }

  /** The balance after a sequence of operations on the real account. */
  function Run(balance: real, ops: seq<Operation>): real
    decreases |ops|
  {
    if ops == [] then balance else Run(Apply(balance, ops[0]).0, ops[1..])
  }

  /** A withdrawal, whatever the amount, never takes a non-negative balance below zero. */
  lemma WithdrawKeepsNonNegative(balance: real, amount: real)
    requires balance >= 0.0
    ensures Apply(balance, Withdraw(amount)).0 >= 0.0
    ensures Apply(balance, Withdraw(amount)).1 == Withdrew <==> amount <= balance
  {
  }

  /** Starting from a non-negative balance, with no negative deposit, the balance stays
      non-negative through any sequence of operations. */
  lemma {:induction false} RunKeepsNonNegative(balance: real, ops: seq<Operation>)
    requires balance >= 0.0
    requires forall k :: 0 <= k < |ops| && ops[k].Deposit? ==> ops[k].amount >= 0.0
    ensures Run(balance, ops) >= 0.0
    decreases |ops|
  {
    if ops != [] {
      forall k | 0 <= k < |ops[1..]| && ops[1..][k].Deposit?
        ensures ops[1..][k].amount >= 0.0
      {
        assert ops[1..][k] == ops[k + 1];
      }
      RunKeepsNonNegative(Apply(balance, ops[0]).0, ops[1..]);
    }
  }

  /** `RealBankAccount`. */
  class RealBankAccount {
    var balance: real

    /** The initial balance defaults to 0. */
    constructor Default()
      ensures balance == 0.0
    {
      balance := 0.0;
    }

    constructor (initialBalance: real)
      ensures balance == initialBalance
    {
      balance := initialBalance;
    }

    /** `deposit`: adds the amount. */
    method Deposit(amount: real) returns (r: Report)
      modifies this
      ensures (balance, r) == Apply(old(balance), Operation.Deposit(amount))
      ensures balance == old(balance) + amount && r == Deposited
    {
      balance := balance + amount;
      r := Deposited;
    }

    /** `withdraw`: subtracts the amount when it does not exceed the balance; otherwise reports
        insufficient funds and leaves the balance alone. */
    method Withdraw(amount: real) returns (r: Report)
      modifies this
      ensures (balance, r) == Apply(old(balance), Operation.Withdraw(amount))
      ensures r == Withdrew <==> amount <= old(balance)
      ensures r != Withdrew ==> r == InsufficientFunds && balance == old(balance)
    {
      if amount <= balance {
        balance := balance - amount;
        r := Withdrew;
      } else {
        r := InsufficientFunds;
      }
    }
  }

  /** `BankAccountProxy`: forwards to the real account only for an authenticated user. */
  class BankAccountProxy {
    const account: RealBankAccount
    const authenticated: bool

    constructor (account: RealBankAccount, authenticated: bool)
      ensures this.account == account && this.authenticated == authenticated
    {
      this.account := account;
      this.authenticated := authenticated;
    }

    method Deposit(amount: real) returns (r: Report)
      modifies account
      ensures authenticated ==> (account.balance, r) == Apply(old(account.balance), Operation.Deposit(amount))
      ensures !authenticated ==> r == AccessDenied && account.balance == old(account.balance)
    {
      if authenticated {
        r := account.Deposit(amount);
      } else {
        r := AccessDenied;
      }
    }

    method Withdraw(amount: real) returns (r: Report)
      modifies account
      ensures authenticated ==> (account.balance, r) == Apply(old(account.balance), Operation.Withdraw(amount))
      ensures !authenticated ==> r == AccessDenied && account.balance == old(account.balance)
    {
      if authenticated {
        r := account.Withdraw(amount);
      } else {
        r := AccessDenied;
      }
    }
  }

  /** The unauthenticated test: deposit 50 and withdraw 20 through a proxy for an
      unauthenticated user; both are denied and the balance stays 100. */
  method UnauthenticatedScenario() returns (r1: Report, r2: Report, balance: real)
    ensures r1 == AccessDenied && r2 == AccessDenied && balance == 100.0
  {
    var account := new RealBankAccount(100.0);
    var proxy := new BankAccountProxy(account, false);
    r1 := proxy.Deposit(50.0);
    r2 := proxy.Withdraw(20.0);
    balance := account.balance;
  }

  /** The authenticated test: 100, deposit 50 gives 150, withdraw 20 gives 130. */
  method AuthenticatedScenario() returns (afterDeposit: real, afterWithdraw: real)
    ensures afterDeposit == 150.0 && afterWithdraw == 130.0
  {
    var account := new RealBankAccount(100.0);
    var proxy := new BankAccountProxy(account, true);
    var r := proxy.Deposit(50.0);
    afterDeposit := account.balance;
    r := proxy.Withdraw(20.0);
    afterWithdraw := account.balance;
  }

  /** The insufficient-funds test: withdrawing 70 from 50 is refused. */
  method InsufficientFundsScenario() returns (r: Report, balance: real)
    ensures r == InsufficientFunds && balance == 50.0
  {
    var account := new RealBankAccount(50.0);
    var proxy := new BankAccountProxy(account, true);
    r := proxy.Withdraw(70.0);
    balance := account.balance;
  }

  /** A new account created without a balance holds 0. */
  method DefaultBalanceScenario() returns (balance: real)
    ensures balance == 0.0
  {
    var account := new RealBankAccount.Default();
    balance := account.balance;
  }
}
