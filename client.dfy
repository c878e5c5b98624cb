/**
 A client of the form, checked from the contracts of `BankAccountSystem`
 alone: the worked examples of opening an account with 100.00 (amounts in
 paise), overdrawing it, depositing into it and emptying it, and the guards
 that refuse presses without changing anything.
 */
module ControllerClient {
  import opened Controller
  import opened Strings

  method GuardScenario()
  {
    var form := new BankAccountSystem();
    var out := form.ActionPerformed(Deposit(Parsed(5000)));
    assert out == Warned(CreateFirst) && form.Model() == NoAccount;
    out := form.ActionPerformed(Create("  ", Parsed(10000)));
    assert out == Warned(InvalidDetails) && form.Model() == NoAccount;
    out := form.ActionPerformed(Create("Asha", Parsed(-1)));
    assert out == Warned(InvalidDetails) && form.Model() == NoAccount;
  }

  method OverdraftScenario()
  {
    var form := new BankAccountSystem();
    var out := form.ActionPerformed(Create("Asha", Parsed(10000)));
    assert out == AccountCreated("Asha", 10000);
    assert |form.Model().account.history| == 1;
    out := form.ActionPerformed(Withdraw(Parsed(15000)));
    assert out == InsufficientBalance(10000);
    assert |form.Model().account.history| == 2;
  }

  method DepositScenario()
  {
    var form := new BankAccountSystem();
    assert TrimStart(" Asha ", 0) == 1 && TrimEnd(" Asha ", 1, 6) == 5;
    assert Trim(" Asha ") == "Asha";
    var out := form.ActionPerformed(Create(" Asha ", Parsed(10000)));
    assert out == AccountCreated("Asha", 10000);
    out := form.ActionPerformed(Deposit(Parsed(5000)));
    assert out == BalanceUpdated(15000) && |form.Model().account.history| == 2;
  }

  method EmptyingScenario()
  {
    var form := new BankAccountSystem();
    var out := form.ActionPerformed(Create("Asha", Parsed(10000)));
    out := form.ActionPerformed(Withdraw(Parsed(10000)));
    assert out == BalanceUpdated(0) && form.Model().account.balance == 0;
    out := form.ActionPerformed(Reset);
    assert out == Cleared && form.Model() == NoAccount;
    out := form.ActionPerformed(History);
    assert out == Warned(CreateFirst);
  }
}
