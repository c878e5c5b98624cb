/**
 The account ledger as values: one account's holder, balance and
 transaction history, and the effect of opening the account, depositing
 and withdrawing. The class `Accounts.BankAccount` updates its fields in
 place and is specified by these functions; the lemmas here state what any
 sequence of deposits and withdrawals does to an account.

 Amounts are exact integers (for instance paise). A history entry records
 what kind of transaction it logs and its amount; the timestamp and the
 wording of the log line are not modelled.
 */
module Ledger {

  /** What a history entry records. */
  datatype Kind = Opened | Deposited | Withdrew | FailedWithdrawal

  datatype Entry = Entry(kind: Kind, amount: int)

  datatype Account = Account(holder: string, balance: int, history: seq<Entry>)

  /** A call of `deposit` or `withdraw` on an existing account. */
  datatype Call = DepositCall(amount: int) | WithdrawCall(amount: int)

  /** How much the logged transaction moved the balance; a failed withdrawal moved nothing. */
  function Effect(e: Entry): int
  {
    match e.kind
    case Opened => e.amount
    case Deposited => e.amount
    case Withdrew => -e.amount
    case FailedWithdrawal => 0
  }

  /** The balance that a history accounts for, summed from the first entry to the last. */
  function Net(h: seq<Entry>): int
  {
    if h == [] then 0 else Net(h[..|h| - 1]) + Effect(h[|h| - 1])
  }

  /**
   The audit invariant of an account: the history opens with exactly one
   creation entry, and the balance is exactly what the logged transactions
   add up to.
   */
  predicate Audited(a: Account)
  {
    && |a.history| >= 1
    && a.history[0].kind == Opened
    && (forall i :: 0 < i < |a.history| ==> a.history[i].kind != Opened)
    && a.balance == Net(a.history)
  }

  /** The new account: its balance is the initial deposit and its history is the one creation entry. */
  function Open(holder: string, initialDeposit: int): (a: Account)
    ensures Audited(a)
    ensures a.holder == holder && a.balance == initialDeposit
    ensures |a.history| == 1
  {
    Account(holder, initialDeposit, [Entry(Opened, initialDeposit)])
  }

  /** A deposit, of any amount: the account itself does not check it. */
  function Deposit(a: Account, amount: int): (r: Account)
    ensures Audited(a) ==> Audited(r)
    ensures r.holder == a.holder
  {
    Account(a.holder, a.balance + amount, a.history + [Entry(Deposited, amount)])
  }

  /** A withdrawal is accepted exactly when it does not exceed the balance; a tie is accepted. */
  predicate Sufficient(a: Account, amount: int)
  {
    amount <= a.balance
  }

  /**
   A withdrawal: when accepted the balance drops by the amount, otherwise it
   stays; either way one entry is logged.
   */
  function Withdraw(a: Account, amount: int): (r: Account)
    ensures Audited(a) ==> Audited(r)
    ensures r.holder == a.holder
    ensures a.balance >= 0 ==> r.balance >= 0
  {
    if Sufficient(a, amount) then
      Account(a.holder, a.balance - amount, a.history + [Entry(Withdrew, amount)])
    else
      Account(a.holder, a.balance, a.history + [Entry(FailedWithdrawal, amount)])
  }

  function Apply(a: Account, c: Call): Account
  {
    match c
    case DepositCall(x) => Deposit(a, x)
    case WithdrawCall(x) => Withdraw(a, x)
  }

  /** The account after the calls, in order. */
  function Replay(a: Account, calls: seq<Call>): Account
    decreases |calls|
  {
    if calls == [] then a else Replay(Apply(a, calls[0]), calls[1..])
  }

  /**
   The entry `e` is the one a call `c` logs on the account `before`: same
   amount, a deposit entry for a deposit, and for a withdrawal a success
   entry exactly when the balance then covered the amount, otherwise a
   failure entry.
   */
  predicate Records(before: Account, c: Call, e: Entry)
  {
    && e.amount == c.amount
    && (c.DepositCall? ==> e.kind == Deposited)
    && (c.WithdrawCall? ==> e.kind == (if Sufficient(before, c.amount) then Withdrew else FailedWithdrawal))
  }

  /** Each call adds exactly one entry, whatever it is and whether or not it is accepted. */
  lemma {:induction false} ReplayLength(a: Account, calls: seq<Call>)
    ensures |Replay(a, calls).history| == |a.history| + |calls|
    decreases |calls|
  {
    if calls != [] {
      ReplayLength(Apply(a, calls[0]), calls[1..]);
    }
  }

  /** An opened account that then saw the calls has 1 + (number of calls) entries. */
  lemma OpenedLength(holder: string, initialDeposit: int, calls: seq<Call>)
    ensures |Replay(Open(holder, initialDeposit), calls).history| == 1 + |calls|
  {
    ReplayLength(Open(holder, initialDeposit), calls);
  }

  /** The history is append-only: the entries there before the calls are still there, unchanged. */
  lemma {:induction false} ReplayKeepsEarlier(a: Account, calls: seq<Call>)
    ensures |a.history| <= |Replay(a, calls).history|
    ensures Replay(a, calls).history[..|a.history|] == a.history
    decreases |calls|
  {
    if calls != [] {
      var b := Apply(a, calls[0]);
      ReplayKeepsEarlier(b, calls[1..]);
      assert b.history[..|a.history|] == a.history;
      var h := Replay(a, calls).history;
      assert h[..|b.history|][..|a.history|] == h[..|a.history|];
    }
  }

  /**
   The entries the calls add follow the calls one for one, in call order;
   the i-th withdrawal is logged as accepted exactly when the account it was
   made on, after the calls before it, covered its amount.
   */
  lemma {:induction false} ReplayInCallOrder(a: Account, calls: seq<Call>)
    ensures |Replay(a, calls).history| == |a.history| + |calls|
    ensures forall i :: 0 <= i < |calls| ==>
      Records(Replay(a, calls[..i]), calls[i], Replay(a, calls).history[|a.history| + i])
    decreases |calls|
  {
    ReplayLength(a, calls);
    if calls != [] {
      var b := Apply(a, calls[0]);
      ReplayInCallOrder(b, calls[1..]);
      ReplayKeepsEarlier(b, calls[1..]);
      var h := Replay(a, calls).history;
      assert calls[..0] == [];
      assert Records(a, calls[0], b.history[|a.history|]);
      assert h[|a.history|] == h[..|b.history|][|a.history|];
      forall i | 1 <= i < |calls|
        ensures Records(Replay(a, calls[..i]), calls[i], h[|a.history| + i])
      {
        assert calls[i] == calls[1..][i - 1];
        assert calls[..i][0] == calls[0];
        assert calls[..i][1..] == calls[1..][..i - 1];
      }
    }
  }

  /** The holder is set when the account is opened and no call changes it. */
  lemma {:induction false} ReplayKeepsHolder(a: Account, calls: seq<Call>)
    ensures Replay(a, calls).holder == a.holder
    decreases |calls|
  {
    if calls != [] {
      ReplayKeepsHolder(Apply(a, calls[0]), calls[1..]);
    }
  }

  /** Every call keeps the audit invariant: the balance stays what the history adds up to. */
  lemma {:induction false} ReplayAudited(a: Account, calls: seq<Call>)
    requires Audited(a)
    ensures Audited(Replay(a, calls))
    decreases |calls|
  {
    if calls != [] {
      ReplayAudited(Apply(a, calls[0]), calls[1..]);
    }
  }

  /** No deposit is negative: the guard the form applies before calling the ledger. */
  predicate NoNegativeDeposit(calls: seq<Call>)
  {
    forall i :: 0 <= i < |calls| ==> calls[i].DepositCall? ==> calls[i].amount >= 0
  }

  /**
   A balance that starts non-negative stays non-negative when no deposit is
   negative; withdrawals never drive it below zero, whatever their amount.
   */
  lemma {:induction false} ReplayNonNegative(a: Account, calls: seq<Call>)
    requires a.balance >= 0
    requires NoNegativeDeposit(calls)
    ensures Replay(a, calls).balance >= 0
    decreases |calls|
  {
    if calls != [] {
      assert NoNegativeDeposit(calls[1..]) by {
        forall i | 0 <= i < |calls[1..]|
          ensures calls[1..][i].DepositCall? ==> calls[1..][i].amount >= 0
        {
          assert calls[1..][i] == calls[i + 1];
        }
      }
      ReplayNonNegative(Apply(a, calls[0]), calls[1..]);
    }
  }

  /** Withdrawing the whole balance is accepted and leaves exactly zero. */
  lemma WithdrawWholeBalance(a: Account)
    ensures Sufficient(a, a.balance)
    ensures Withdraw(a, a.balance).balance == 0
    ensures Withdraw(a, a.balance).history == a.history + [Entry(Withdrew, a.balance)]
  {
  }
}
