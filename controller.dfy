/**
 The form's event handler with the window, dialogs and table left out:
 the session state is "no account" or one account, every button press is an
 `Action`, and each press yields the new state and an `Outcome` standing for
 what the form shows. `Step` is the handler as a function on values;
 `BankAccountSystem.ActionPerformed` runs it on a `BankAccount` object and is
 specified by `Step`; the lemmas state what the guards guarantee.
 */
module Controller {
  import Ledger
  import Accounts
  import opened Strings

  /** An amount field after `Double.parseDouble`: a number, or text that does not parse. */
  datatype Amount = Parsed(value: int) | Malformed

  /** The buttons, with the text of the fields each one reads. */
  datatype Action =
    | Create(name: string, initialDeposit: Amount)
    | Deposit(amount: Amount)
    | Withdraw(amount: Amount)
    | Balance
    | History
    | Reset

  /** The warning dialogs; each one leaves the state as it was. */
  datatype Warning = InvalidDetails | CreateFirst | InvalidAmount | NotNumeric

  /** What the form shows after a press. */
  datatype Outcome =
    | Warned(warning: Warning)
    | AccountCreated(holder: string, balance: int)
    | BalanceUpdated(balance: int)
    | InsufficientBalance(balance: int)
    | BalanceShown(balance: int)
    | HistoryShown(history: seq<Ledger.Entry>)
    | Cleared

  /** The form's `account` field: null, or one account. */
  datatype Session = NoAccount | Active(account: Ledger.Account)

  datatype Transition = Transition(next: Session, outcome: Outcome)

  /** Create reads the name and parses the amount first, then refuses a blank name or a negative amount. */
  function PressCreate(s: Session, text: string, initial: Amount): Transition
  {
    var name := Trim(text);
    if initial.Malformed? then Transition(s, Warned(NotNumeric))
    else if name == [] || initial.value < 0 then Transition(s, Warned(InvalidDetails))
    else
      var a := Ledger.Open(name, initial.value);
      Transition(Active(a), AccountCreated(name, a.balance))
  }

  /** Deposit requires an account, then a parsed, positive amount. */
  function PressDeposit(s: Session, amt: Amount): Transition
  {
    if s.NoAccount? then Transition(s, Warned(CreateFirst))
    else if amt.Malformed? then Transition(s, Warned(NotNumeric))
    else if amt.value <= 0 then Transition(s, Warned(InvalidAmount))
    else
      var a := Ledger.Deposit(s.account, amt.value);
      Transition(Active(a), BalanceUpdated(a.balance))
  }

  /** Withdraw has the same guards as deposit; a rejected withdrawal still updates the account. */
  function PressWithdraw(s: Session, amt: Amount): Transition
  {
    if s.NoAccount? then Transition(s, Warned(CreateFirst))
    else if amt.Malformed? then Transition(s, Warned(NotNumeric))
    else if amt.value <= 0 then Transition(s, Warned(InvalidAmount))
    else
      var a := Ledger.Withdraw(s.account, amt.value);
      if Ledger.Sufficient(s.account, amt.value) then Transition(Active(a), BalanceUpdated(a.balance))
      else Transition(Active(a), InsufficientBalance(a.balance))
  }

  function PressBalance(s: Session): Transition
  {
    if s.NoAccount? then Transition(s, Warned(CreateFirst))
    else Transition(s, BalanceShown(s.account.balance))
  }

  function PressHistory(s: Session): Transition
  {
    if s.NoAccount? then Transition(s, Warned(CreateFirst))
    else Transition(s, HistoryShown(s.account.history))
  }

  /** One press of a button. */
  function Step(s: Session, act: Action): Transition
  {
    match act
    case Create(text, initial) => PressCreate(s, text, initial)
    case Deposit(amt) => PressDeposit(s, amt)
    case Withdraw(amt) => PressWithdraw(s, amt)
    case Balance => PressBalance(s)
    case History => PressHistory(s)
    case Reset => Transition(NoAccount, Cleared)
  }

  /** The state after the presses, in order. */
  function Run(s: Session, acts: seq<Action>): Session
    decreases |acts|
  {
    if acts == [] then s else Run(Step(s, acts[0]).next, acts[1..])
  }

  /** The session invariant: an account, if any, is audited and not overdrawn. */
  predicate Safe(s: Session)
  {
    s.Active? ==> Ledger.Audited(s.account) && s.account.balance >= 0
  }

  /** Every press keeps the invariant. */
  lemma StepSafe(s: Session, act: Action)
    requires Safe(s)
    ensures Safe(Step(s, act).next)
  {
  }

  /** From the start, or any safe state, no sequence of presses overdraws the account. */
  lemma {:induction false} RunSafe(s: Session, acts: seq<Action>)
    requires Safe(s)
    ensures Safe(Run(s, acts))
    decreases |acts|
  {
    if acts != [] {
      StepSafe(s, acts[0]);
      RunSafe(Step(s, acts[0]).next, acts[1..]);
    }
  }

  /**
   Create succeeds exactly when the amount parses, is not negative and the
   trimmed name has a non-blank character; it then replaces the state with a
   fresh account for the trimmed name, and otherwise changes nothing.
   */
  lemma CreateGuard(s: Session, text: string, initial: Amount)
    ensures Step(s, Create(text, initial)).outcome.AccountCreated?
        <==> initial.Parsed? && initial.value >= 0 && exists i :: 0 <= i < |text| && !Blank(text[i])
    ensures Step(s, Create(text, initial)).outcome.AccountCreated? ==>
        Step(s, Create(text, initial)).next == Active(Ledger.Open(Trim(text), initial.value))
    ensures !Step(s, Create(text, initial)).outcome.AccountCreated? ==>
        Step(s, Create(text, initial)).next == s
  {
  }

  /** Without an account, only Create and Reset do anything; the rest warn and change nothing. */
  lemma NoAccountGuard(act: Action)
    requires !act.Create? && !act.Reset?
    ensures Step(NoAccount, act) == Transition(NoAccount, Warned(CreateFirst))
  {
  }

  /** Reset always returns to "no account". */
  lemma ResetClears(s: Session)
    ensures Step(s, Reset).next == NoAccount
  {
  }

  /** A warning means the state did not change; so do the balance and history queries. */
  lemma WarningsChangeNothing(s: Session, act: Action)
    ensures Step(s, act).outcome.Warned? ==> Step(s, act).next == s
    ensures act.Balance? || act.History? ==> Step(s, act).next == s
  {
  }

  /** The ledger call an action passes on to an existing account, if its guards let it through. */
  function Forwarded(act: Action): seq<Ledger.Call>
  {
    match act
    case Deposit(Parsed(v)) => if v > 0 then [Ledger.DepositCall(v)] else []
    case Withdraw(Parsed(v)) => if v > 0 then [Ledger.WithdrawCall(v)] else []
    case _ => []
  }

  function ForwardedAll(acts: seq<Action>): seq<Ledger.Call>
    decreases |acts|
  {
    if acts == [] then [] else Forwarded(acts[0]) + ForwardedAll(acts[1..])
  }

  /** Neither Create nor Reset: the press cannot replace the account. */
  predicate KeepsAccount(act: Action)
  {
    !act.Create? && !act.Reset?
  }

  /**
   On an existing account, presses other than Create and Reset act exactly
   as the ledger calls their guards let through, in order; every call that
   passes has a positive amount.
   */
  lemma {:induction false} RunOnAccount(a: Ledger.Account, acts: seq<Action>)
    requires forall i :: 0 <= i < |acts| ==> KeepsAccount(acts[i])
    ensures Run(Active(a), acts) == Active(Ledger.Replay(a, ForwardedAll(acts)))
    ensures forall i :: 0 <= i < |ForwardedAll(acts)| ==> ForwardedAll(acts)[i].amount > 0
    decreases |acts|
  {
    if acts != [] {
      var rest := ForwardedAll(acts[1..]);
      var b := Step(Active(a), acts[0]).next;
      assert b == Active(Ledger.Replay(a, Forwarded(acts[0]))) by {
        if Forwarded(acts[0]) != [] {
          assert Forwarded(acts[0])[1..] == [];
        }
      }
      RunOnAccount(b.account, acts[1..]);
      assert ForwardedAll(acts) == Forwarded(acts[0]) + rest;
      if Forwarded(acts[0]) != [] {
        assert (Forwarded(acts[0]) + rest)[1..] == rest;
      } else {
        assert Forwarded(acts[0]) + rest == rest;
      }
    }
  }

  /**
   The history after opening an account and pressing buttons other than
   Create and Reset has one entry for the opening and one for each deposit
   and withdrawal that passed the guards, accepted or not.
   */
  lemma HistoryCount(holder: string, initial: int, acts: seq<Action>)
    requires forall i :: 0 <= i < |acts| ==> KeepsAccount(acts[i])
    ensures Run(Active(Ledger.Open(holder, initial)), acts).Active?
    ensures |Run(Active(Ledger.Open(holder, initial)), acts).account.history| == 1 + |ForwardedAll(acts)|
  {
    RunOnAccount(Ledger.Open(holder, initial), acts);
    Ledger.OpenedLength(holder, initial, ForwardedAll(acts));
  }

  /** The form: its `account` field, null until an account is created. */
  class BankAccountSystem {
    var account: Accounts.BankAccount?

    function Model(): Session
      reads this, account
    {
      if account == null then NoAccount else Active(account.State())
    }

    ghost predicate Valid()
      reads this, account
    {
      Safe(Model())
    }

    constructor ()
      ensures account == null
      ensures Valid()
    {
      account := null;
    }

    /** Handles one button press exactly as `Step` does. */
    method ActionPerformed(act: Action) returns (out: Outcome)
      requires Valid()
      modifies this, account
      ensures Valid()
      ensures Model() == Step(old(Model()), act).next
      ensures out == Step(old(Model()), act).outcome
      ensures account != null && account != old(account) ==> fresh(account)
    {
      match act
      case Create(text, initial) =>
        out := OnCreate(text, initial);
      case Deposit(amt) =>
        out := OnDeposit(amt);
      case Withdraw(amt) =>
        out := OnWithdraw(amt);
      case Balance =>
        out := OnBalance();
      case History =>
        out := OnHistory();
      case Reset =>
        ResetAll();
        out := Cleared;
    }

    method OnCreate(text: string, initial: Amount) returns (out: Outcome)
      requires Valid()
      modifies this
      ensures Valid()
      ensures Model() == PressCreate(old(Model()), text, initial).next
      ensures out == PressCreate(old(Model()), text, initial).outcome
      ensures account != old(account) ==> account != null && fresh(account)
    {
      var name := Trim(text);
      if initial.Malformed? {
        return Warned(NotNumeric);
      }
      if |name| == 0 || initial.value < 0 {
        return Warned(InvalidDetails);
      }
      account := new Accounts.BankAccount(name, initial.value);
      var b := account.GetBalance();
      out := AccountCreated(name, b);
    }

    method OnDeposit(amt: Amount) returns (out: Outcome)
      requires Valid()
      modifies account
      ensures Valid()
      ensures Model() == PressDeposit(old(Model()), amt).next
      ensures out == PressDeposit(old(Model()), amt).outcome
    {
      if account == null {
        return Warned(CreateFirst);
      }
      if amt.Malformed? {
        return Warned(NotNumeric);
      }
      if amt.value <= 0 {
        return Warned(InvalidAmount);
      }
      account.Deposit(amt.value);
      var b := account.GetBalance();
      out := BalanceUpdated(b);
    }

    method OnWithdraw(amt: Amount) returns (out: Outcome)
      requires Valid()
      modifies account
      ensures Valid()
      ensures Model() == PressWithdraw(old(Model()), amt).next
      ensures out == PressWithdraw(old(Model()), amt).outcome
    {
      if account == null {
        return Warned(CreateFirst);
      }
      if amt.Malformed? {
        return Warned(NotNumeric);
      }
      if amt.value <= 0 {
        return Warned(InvalidAmount);
      }
      var ok := account.Withdraw(amt.value);
      var b := account.GetBalance();
      out := if ok then BalanceUpdated(b) else InsufficientBalance(b);
    }

    method OnBalance() returns (out: Outcome)
      ensures out == PressBalance(Model()).outcome
    {
      if account == null {
        return Warned(CreateFirst);
      }
      var b := account.GetBalance();
      out := BalanceShown(b);
    }

    method OnHistory() returns (out: Outcome)
      ensures out == PressHistory(Model()).outcome
    {
      if account == null {
        return Warned(CreateFirst);
      }
      var h := account.GetTransactionHistory();
      out := HistoryShown(h);
    }

    /** Drops the account. */
    method ResetAll()
      modifies this
      ensures account == null
      ensures Model() == NoAccount
    {
      account := null;
    }
  }
}
