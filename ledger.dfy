/** The guarded balance ledger of BankAccount: one holder label that never
    changes and one balance that only deposit and withdraw change, each under
    its own guard. Java's `double` is modelled as `real`: no rounding,
    no infinities and no NaN. */
module Ledger {

  /** One call to a mutator of the account. */
  datatype Op = Deposit(amount: real) | Withdraw(amount: real)

  /** The balance after `deposit(amount)`: the amount is credited only when
      it is positive; otherwise nothing changes. */
  function Deposited(balance: real, amount: real): (r: real)
    ensures r == balance || r == balance + amount
    ensures r == balance <==> amount <= 0.0
    ensures r >= balance
  {
    if amount > 0.0 then balance + amount else balance
  }

  /** The balance after `withdraw(amount)`: the amount is debited only when
      it is positive and covered by the balance; otherwise nothing changes. */
  function Withdrawn(balance: real, amount: real): (r: real)
    ensures r == balance || r == balance - amount
    ensures r == balance <==> !(0.0 < amount <= balance)
    ensures r <= balance
    ensures balance >= 0.0 ==> r >= 0.0
  {
    if amount > 0.0 && amount <= balance then balance - amount else balance
  }

  /** The balance after one call. */
  function Apply(balance: real, op: Op): (r: real)
  {
    match op
    case Deposit(amount) => Deposited(balance, amount)
    case Withdraw(amount) => Withdrawn(balance, amount)
  }

  /** The balance after a sequence of calls, first call first. */
  function Run(balance: real, ops: seq<Op>): (r: real)
    decreases |ops|
  {
    if ops == [] then balance else Run(Apply(balance, ops[0]), ops[1..])
  }

  /** A balance that starts at or above zero stays there, whatever calls
      are made, accepted or rejected. */
  lemma {:induction false} RunKeepsNonNegative(balance: real, ops: seq<Op>)
    requires balance >= 0.0
    ensures Run(balance, ops) >= 0.0
    decreases |ops|
  {
    if ops != [] {
      RunKeepsNonNegative(Apply(balance, ops[0]), ops[1..]);
    }
  }

  /** Deposits alone never lower the balance. */
  lemma {:induction false} DepositsNeverLower(balance: real, ops: seq<Op>)
    requires forall i :: 0 <= i < |ops| ==> ops[i].Deposit?
    ensures Run(balance, ops) >= balance
    decreases |ops|
  {
    if ops != [] {
      DepositsNeverLower(Apply(balance, ops[0]), ops[1..]);
    }
  }

  /** Two accepted deposits credit the same as one deposit of their sum. */
  lemma DepositsAdd(balance: real, x: real, y: real)
    requires x > 0.0 && y > 0.0
    ensures Deposited(Deposited(balance, x), y) == Deposited(balance, x + y)
  {
  }

  /** An accepted withdrawal is undone by a deposit of the same amount. */
  lemma DepositUndoesWithdraw(balance: real, x: real)
    requires 0.0 < x <= balance
    ensures Deposited(Withdrawn(balance, x), x) == balance
  {
  }

  /** Withdrawing the whole of a positive balance is accepted and empties
      the account; withdrawing anything more is rejected. */
  lemma WithdrawBoundary(balance: real, excess: real)
    requires balance > 0.0 && excess > 0.0
    ensures Withdrawn(balance, balance) == 0.0
    ensures Withdrawn(balance, balance + excess) == balance
  {
  }

  class BankAccount {
    var accountHolder: string
    var balance: real

    /** Stores both values as given; a negative initial balance is accepted. */
    constructor (accountHolder: string, initialBalance: real)
      ensures this.accountHolder == accountHolder
      ensures balance == initialBalance
    {
      this.accountHolder := accountHolder;
      balance := initialBalance;
    }

    method GetAccountHolder() returns (holder: string)
      ensures holder == accountHolder
    {
      holder := accountHolder;
    }

    method GetBalance() returns (current: real)
      ensures current == balance
    {
      current := balance;
    }

    method Deposit(amount: real)
      modifies this`balance
      ensures balance == Deposited(old(balance), amount)
      ensures amount > 0.0 ==> balance == old(balance) + amount
      ensures amount <= 0.0 ==> balance == old(balance)
      ensures old(balance) >= 0.0 ==> balance >= 0.0
      ensures accountHolder == old(accountHolder)
    {
      if amount > 0.0 {
        balance := balance + amount;
      }
    }

    method Withdraw(amount: real)
      modifies this`balance
      ensures balance == Withdrawn(old(balance), amount)
      ensures 0.0 < amount <= old(balance) ==> balance == old(balance) - amount
      ensures !(0.0 < amount <= old(balance)) ==> balance == old(balance)
      ensures old(balance) >= 0.0 ==> balance >= 0.0
      ensures accountHolder == old(accountHolder)
    {
      if amount > 0.0 && amount <= balance {
        balance := balance - amount;
      }
    }
  }

  /** The demonstration: open Alice's account with 1000, deposit 250,
      withdraw 100. */
  method Demo() returns (holder: string, final: real)
    ensures holder == "Alice" && final == 1150.0
  {
    var account := new BankAccount("Alice", 1000.0);
    account.Deposit(250.0);
    account.Withdraw(100.0);
    holder := account.GetAccountHolder();
    final := account.GetBalance();
  }
}
