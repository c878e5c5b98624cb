/**
 The `BankAccount` object: a holder name fixed at construction, a balance
 and a transaction history, the latter two updated in place by `Deposit`,
 `Withdraw` and `AddTransaction`. Each method states its new fields and how
 they relate to the value-level ledger in module `Ledger`.
 */
module Accounts {
  import opened Ledger

  class BankAccount {
    const accountHolder: string
    var balance: int
    var transactionHistory: seq<Entry>

    /** The account as a value. */
    function State(): Account
      reads this
    {
      Account(accountHolder, balance, transactionHistory)
    }

    /** The audit invariant: kept by the constructor, `Deposit` and `Withdraw`. */
    ghost predicate Valid()
      reads this
    {
      Audited(State())
    }

    /** Opens the account; the only creation entry is logged through `AddTransaction`. */
    constructor (accountHolder: string, initialDeposit: int)
      ensures this.accountHolder == accountHolder
      ensures balance == initialDeposit
      ensures transactionHistory == [Entry(Opened, initialDeposit)]
      ensures State() == Open(accountHolder, initialDeposit)
      ensures Valid()
    {
      this.accountHolder := accountHolder;
      balance := initialDeposit;
      transactionHistory := [];
      new;
      AddTransaction(Entry(Opened, initialDeposit));
    }

    /** Adds the amount, whatever its sign, and logs the deposit. */
    method Deposit(amount: int)
      modifies this
      ensures balance == old(balance) + amount
      ensures transactionHistory == old(transactionHistory) + [Entry(Deposited, amount)]
      ensures State() == Ledger.Deposit(old(State()), amount)
      ensures old(Valid()) ==> Valid()
    {
      balance := balance + amount;
      AddTransaction(Entry(Deposited, amount));
    }

    /**
     Accepts exactly when the amount does not exceed the balance; a rejected
     withdrawal leaves the balance alone and is logged all the same.
     */
    method Withdraw(amount: int) returns (ok: bool)
      modifies this
      ensures ok <==> amount <= old(balance)
      ensures ok ==> balance == old(balance) - amount
      ensures ok ==> transactionHistory == old(transactionHistory) + [Entry(Withdrew, amount)]
      ensures !ok ==> balance == old(balance)
      ensures !ok ==> transactionHistory == old(transactionHistory) + [Entry(FailedWithdrawal, amount)]
      ensures ok == Sufficient(old(State()), amount)
      ensures State() == Ledger.Withdraw(old(State()), amount)
      ensures old(Valid()) ==> Valid()
      ensures old(balance) >= 0 ==> balance >= 0
    {
      if amount <= balance {
        balance := balance - amount;
        AddTransaction(Entry(Withdrew, amount));
        ok := true;
      } else {
        AddTransaction(Entry(FailedWithdrawal, amount));
        ok := false;
      }
    }

    /** Appends one entry at the end of the history and touches nothing else. */
    method AddTransaction(details: Entry)
      modifies this`transactionHistory
      ensures transactionHistory == old(transactionHistory) + [details]
    {
      transactionHistory := transactionHistory + [details];
    }

    method GetTransactionHistory() returns (h: seq<Entry>)
      ensures h == transactionHistory
    {
      h := transactionHistory;
    }

    method GetBalance() returns (b: int)
      ensures b == balance
    {
      b := balance;
    }

    method GetAccountHolder() returns (name: string)
      ensures name == accountHolder
    {
      name := accountHolder;
    }
  }
}
