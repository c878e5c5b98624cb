# Bank account system: verified model of the ledger and its form controller

The repository is a single-user bank account demonstration. One
`BankAccount` object holds a holder name, a balance and a transaction
history. The form around it lets a user create the account, deposit,
withdraw, check the balance, view the history and reset. This project
models two things:

- the `BankAccount` class, as the class `Accounts.BankAccount`: the
  holder name is a constant set by the constructor, and the balance and the
  history are updated in place;
- the guard-and-state logic of the form's `actionPerformed` handler and
  `resetAll`, as the class `Controller.BankAccountSystem`, whose only field
  is the nullable `account`.

Each class is specified by pure functions on values:

- `Ledger.Open`, `Ledger.Deposit` and `Ledger.Withdraw` specify the account;
- `Controller.Step` specifies one button press.

The lemmas beside these functions state what the source promises over any
sequence of operations:

- the history is append-only;
- the history has one entry per deposit or withdrawal call, in call order,
  plus the opening entry;
- the holder never changes;
- the balance always equals what the logged transactions add up to;
- under the form's guards the balance is never negative;
- create is refused exactly when the trimmed name is blank, or the amount is
  negative or does not parse;
- without an account, deposit, withdraw, balance and history only warn;
- reset always returns to "no account".

Files:

- `ledger.dfy` (module `Ledger`): accounts, log entries, deposit and
  withdrawal as values, and replaying a sequence of calls.
- `account.dfy` (module `Accounts`): the `BankAccount` class.
- `strings.dfy` (module `Strings`): Java's `String.trim`, which the form
  applies to the holder name.
- `controller.dfy` (module `Controller`): button presses (`Action`), what the
  form shows (`Outcome`), the handler as the function `Step`, and the class
  `BankAccountSystem`. `Step` is made of one function per button
  (`PressCreate`, `PressDeposit`, `PressWithdraw`, `PressBalance`,
  `PressHistory`). Each of these functions specifies one handler method of the class.
- `client.dfy` (module `ControllerClient`): client methods that press
  buttons on a `BankAccountSystem` and check its replies from the contracts
  alone. They cover the worked examples: open an account with 100.00, try to
  withdraw 150.00, deposit 50.00, withdraw everything, and the guards.

Amounts are exact integers, for example paise; the source uses `double`.
A log entry is modelled as its kind (opened, deposited, withdrew, failed
withdrawal) and its amount.

## Model

| member | source | states |
|---|---|---|
| `Ledger.Open` | BankAccountSystem.java:17-21 | a new account has the given holder, a balance equal to the initial deposit, exactly one history entry, and meets the audit invariant (history opens with the only creation entry; balance equals the sum of logged effects) |
| `Ledger.Deposit` | BankAccountSystem.java:23-26 | a deposit keeps the audit invariant and the holder, for any amount |
| `Ledger.Withdraw` | BankAccountSystem.java:28-37 | a withdrawal keeps the audit invariant and the holder, and never turns a non-negative balance negative, whatever the amount |
| `Ledger.Sufficient` | BankAccountSystem.java:29 | definition: a withdrawal is accepted exactly when its amount is at most the balance, so a tie is accepted |
| `Ledger.WithdrawWholeBalance` | BankAccountSystem.java:29-32 | the tie amount == balance is accepted, leaves exactly zero and logs one success entry |
| `Ledger.ReplayLength` | BankAccountSystem.java:23-41 | every deposit or withdrawal call, accepted or rejected, adds exactly one history entry |
| `Ledger.OpenedLength` | BankAccountSystem.java:15-41 | after opening and any calls, the history length is 1 plus the number of calls |
| `Ledger.ReplayKeepsEarlier` | BankAccountSystem.java:39-41 | the history is append-only: the entries present before any calls are still its prefix, unchanged |
| `Ledger.ReplayInCallOrder` | BankAccountSystem.java:23-41 | the new entries match the calls one for one, in call order: same amount, a deposit entry for a deposit, and for the i-th withdrawal a success entry exactly when the balance after the first i calls covered it, otherwise a failure entry |
| `Ledger.ReplayKeepsHolder` | BankAccountSystem.java:13-18 | no deposit or withdrawal changes the holder |
| `Ledger.ReplayAudited` | BankAccountSystem.java:23-37 | after any calls the balance is still exactly opening + deposits - accepted withdrawals, as recorded in the history |
| `Ledger.ReplayNonNegative` | BankAccountSystem.java:23-37 | a non-negative balance stays non-negative under any calls in which no deposit is negative |
| `Accounts.BankAccount.constructor` | BankAccountSystem.java:17-21 | holder and balance are the arguments; the history is the single creation entry; the object is the value `Ledger.Open` gives and meets the audit invariant |
| `Accounts.BankAccount.Deposit` | BankAccountSystem.java:23-26 | balance rises by exactly the amount; exactly one deposit entry is appended and earlier entries are unchanged; the new state is `Ledger.Deposit` of the old one; the audit invariant is kept |
| `Accounts.BankAccount.Withdraw` | BankAccountSystem.java:28-37 | returns true exactly when amount <= balance; on true the balance drops by the amount and a success entry is appended; on false the balance is unchanged and a failure entry is appended; the invariant and non-negativity are kept |
| `Accounts.BankAccount.AddTransaction` | BankAccountSystem.java:39-41 | appends exactly the given entry at the end of the history and may change no other field |
| `Accounts.BankAccount.GetTransactionHistory` | BankAccountSystem.java:43-45 | returns the history and changes nothing |
| `Accounts.BankAccount.GetBalance` | BankAccountSystem.java:47 | returns the balance and changes nothing |
| `Accounts.BankAccount.GetAccountHolder` | BankAccountSystem.java:48 | returns the holder and changes nothing; the holder is a constant set only by the constructor |
| `Strings.TrimStart` | BankAccountSystem.java:181 | the start index of the trimmed name: every character before it is <= U+0020, and the one at it, if any, is not |
| `Strings.TrimEnd` | BankAccountSystem.java:181 | the end index of the trimmed name, never below the start: every character from it to the end is <= U+0020, and the one before it, if after the start, is not |
| `Strings.Trim` | BankAccountSystem.java:181-183 | the trimmed name is empty exactly when every character is blank; otherwise it starts and ends with a non-blank character |
| `Strings.TrimParts` | BankAccountSystem.java:181 | the input is blanks, then the trimmed name as a contiguous slice, then blanks |
| `Strings.TrimKeepsTrimmed` | BankAccountSystem.java:181 | a name that already starts and ends with a non-blank character is left unchanged |
| `Strings.TrimIdempotent` | BankAccountSystem.java:181 | trimming twice gives the same name as trimming once |
| `Controller.PressCreate` | BankAccountSystem.java:180-192 | definition: a malformed amount warns first, then a blank trimmed name or a negative amount warns, both with the state unchanged; otherwise a new account for the trimmed name, replacing any existing one |
| `Controller.PressDeposit` | BankAccountSystem.java:194-201 | definition: no account warns, then a malformed amount, then an amount <= 0, all with the state unchanged; otherwise the ledger deposit and the new balance shown |
| `Controller.PressWithdraw` | BankAccountSystem.java:203-211 | definition: the same three guards as deposit; otherwise the ledger withdrawal, with the new balance shown if accepted or the insufficient-balance warning and the unchanged balance if not |
| `Controller.PressBalance` | BankAccountSystem.java:213-216 | definition: no account warns; otherwise the current balance is shown; the state is unchanged |
| `Controller.PressHistory` | BankAccountSystem.java:218-221 | definition: no account warns; otherwise the history is shown in order; the state is unchanged |
| `Controller.Step` | BankAccountSystem.java:176-230 | definition: each button goes to its press function; reset goes to "no account" with the form cleared |
| `Controller.StepSafe` | BankAccountSystem.java:183-207 | no button press breaks the session invariant (any account is audited and not overdrawn) |
| `Controller.RunSafe` | BankAccountSystem.java:176-230 | after any sequence of presses from a safe state, including the start, the balance is not negative |
| `Controller.CreateGuard` | BankAccountSystem.java:181-187 | create succeeds exactly when the amount parses, is >= 0 and the name has a non-blank character; on success the state is a new account for the trimmed name; otherwise the state is unchanged |
| `Controller.NoAccountGuard` | BankAccountSystem.java:194-221 | without an account, deposit, withdraw, balance and history only show the "create an account first" warning and change nothing |
| `Controller.ResetClears` | BankAccountSystem.java:239-247 | reset always returns to "no account" |
| `Controller.WarningsChangeNothing` | BankAccountSystem.java:176-230 | every warning outcome leaves the state unchanged, and so do the balance and history queries |
| `Controller.RunOnAccount` | BankAccountSystem.java:194-221 | on an existing account, presses other than create and reset act exactly as replaying the deposit and withdraw calls that passed the guards, in order; each such call has a positive amount |
| `Controller.HistoryCount` | BankAccountSystem.java:187-207 | after creating an account and pressing anything but create or reset, the history has 1 + (number of deposits and withdrawals that passed the guards) entries |
| `Controller.BankAccountSystem.constructor` | BankAccountSystem.java:62 | the form starts with no account |
| `Controller.BankAccountSystem.ActionPerformed` | BankAccountSystem.java:176-230 | one press updates the account object and returns the outcome exactly as `Step` prescribes, keeps the session invariant, and any new account object is fresh |
| `Controller.BankAccountSystem.OnCreate` | BankAccountSystem.java:180-192 | a number-format warning, or an invalid-details warning for a blank trimmed name or a negative amount, with the state unchanged; otherwise a fresh account for the trimmed name with the initial balance |
| `Controller.BankAccountSystem.OnDeposit` | BankAccountSystem.java:194-201 | without an account, or with a malformed or non-positive amount, a warning and no change; otherwise the account gets the deposit and the new balance is shown |
| `Controller.BankAccountSystem.OnWithdraw` | BankAccountSystem.java:203-211 | the same guards as deposit; otherwise the account gets the withdrawal, and the form shows the new balance, or the insufficient-balance warning with the unchanged balance |
| `Controller.BankAccountSystem.OnBalance` | BankAccountSystem.java:213-216 | without an account, the create-first warning; otherwise the current balance; nothing changes |
| `Controller.BankAccountSystem.OnHistory` | BankAccountSystem.java:218-221 | without an account, the create-first warning; otherwise the full history in order; nothing changes |
| `Controller.BankAccountSystem.ResetAll` | BankAccountSystem.java:239-247 | the account field becomes null |

## Left out

- The Swing window: layout, colours, fonts, labels, dialogs, the table and `refreshTable` (BankAccountSystem.java:66-170, 235-237, 249-256). These are presentation only. The dialog or label a press produces is modelled as the `Outcome` value it returns.
- An amount field is modelled as already parsed: either a number, or input that does not parse. The model does not include `Double.parseDouble` on the text or the `NumberFormatException` it throws.
- Floating point: amounts are exact integers. So the model has no rounding in `balance += amount` and `balance -= amount`. It also has no `NaN` or infinite amount; in the source, `NaN` passes the `< 0` and `<= 0` guards.
- Log entry text: the wording, the `new Date()` timestamp and the currency formatting are not modelled. An entry is its kind and amount; the clock is not modelled.
- `Accounts.BankAccount.GetTransactionHistory`: returns the history as a value. The source returns the live list, which a caller could then change.
- `Accounts.BankAccount.AddTransaction`: public like the source's method, so it may append any entry. Such a call can break the audit invariant, which only the constructor, `Deposit` and `Withdraw` keep.
- The look-and-feel setup and `main` (BankAccountSystem.java:74-76, 261-263).
