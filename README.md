# Guarded state in the java-programming examples, modelled in Dafny

This project models the few classes of the java-programming teaching
repository whose methods change or compute a value under a rule:

- `BankAccount` (object-oriented-programming): a holder label that is never
  changed after construction and a balance that only `deposit` (positive
  amounts) and `withdraw` (positive amounts no larger than the balance)
  change. A rejected call leaves the balance as it was. Module `Ledger`:
  the class `BankAccount`, the one-step rules `Deposited` and `Withdrawn`, and
  `Run`, the balance after any sequence of calls, with lemmas about them.
- `Person` (EncapsulationExample) and `Student`: a name set unconditionally
  and an age set only to positive values. Both classes follow the same rule,
  stated once in module `NameAge` (`Apply` for one setter call, `Replay` for
  a sequence); modules `Encapsulation` and `StudentRecord` hold the two
  classes, whose setters are proved to follow that rule.
- `Book`: three overloaded constructors filling in fixed defaults, modelled
  as a datatype and three functions in module `Books`.
- `YearOfBirthWithMonth`: the birth-year estimate, lifted out of the console
  program as the function `YearOfBirth.BirthYear` of the current year and
  month, the age and the birth month, with `AgeAt` as the reference
  definition of an age that it inverts.

The `BankAccount` constructor accepts any initial balance, negative
included, and no call reports a typed error; a rejection only prints a
message, modelled as "nothing changes". Non-negativity of the balance is
therefore proved only for a balance that starts at or above zero.

## Model

| member | source | states |
|---|---|---|
| `Ledger.Deposited` | object-oriented-programming/examples/BankAccount.java:28-35 | a deposit either credits exactly the amount or changes nothing, and changes nothing exactly when the amount is not positive; it never lowers the balance |
| `Ledger.Withdrawn` | object-oriented-programming/examples/BankAccount.java:38-45 | a withdrawal either debits exactly the amount or changes nothing, and changes nothing exactly when the amount is not positive or exceeds the balance; it never raises the balance and never takes a non-negative balance below zero |
| `Ledger.RunKeepsNonNegative` | object-oriented-programming/examples/BankAccount.java:28-45 | from a balance at or above zero, any sequence of deposit and withdraw calls leaves the balance at or above zero |
| `Ledger.DepositsNeverLower` | object-oriented-programming/examples/BankAccount.java:28-35 | any sequence of deposits alone leaves the balance at least where it started |
| `Ledger.DepositsAdd` | object-oriented-programming/examples/BankAccount.java:28-30 | two accepted deposits give the same balance as one deposit of their sum |
| `Ledger.DepositUndoesWithdraw` | object-oriented-programming/examples/BankAccount.java:28-45 | an accepted withdrawal followed by a deposit of the same amount restores the balance exactly |
| `Ledger.WithdrawBoundary` | object-oriented-programming/examples/BankAccount.java:39-44 | withdrawing the whole of a positive balance leaves exactly 0; withdrawing more than the balance is rejected and leaves it unchanged |
| `Ledger.BankAccount.constructor` | object-oriented-programming/examples/BankAccount.java:12-15 | holder and initial balance are stored verbatim, with no check on the balance |
| `Ledger.BankAccount.GetAccountHolder` | object-oriented-programming/examples/BankAccount.java:18-20 | returns the holder and changes nothing |
| `Ledger.BankAccount.GetBalance` | object-oriented-programming/examples/BankAccount.java:23-25 | returns the balance and changes nothing |
| `Ledger.BankAccount.Deposit` | object-oriented-programming/examples/BankAccount.java:28-35 | a positive amount raises the balance by exactly that amount, any other leaves it unchanged; the holder never changes; a non-negative balance stays non-negative |
| `Ledger.BankAccount.Withdraw` | object-oriented-programming/examples/BankAccount.java:38-45 | an amount in (0, balance] lowers the balance by exactly that amount, any other leaves it unchanged; the holder never changes; a non-negative balance stays non-negative |
| `Ledger.Demo` | object-oriented-programming/examples/BankAccount.java:53-59 | Alice's account opened with 1000, after depositing 250 and withdrawing 100, holds 1150 |
| `NameAge.Apply` | introduction-to-programming/examples/EncapsulationExample.java:13-28 | setting the name stores it and keeps the age; setting the age keeps the name, stores a positive age and ignores any other; a non-negative age stays non-negative |
| `NameAge.ReplayKeepsAgeNonNegative` | introduction-to-programming/examples/EncapsulationExample.java:23-28 | from an age at or above zero, any sequence of setter calls leaves the age at or above zero |
| `NameAge.ReachableAge` | introduction-to-programming/examples/EncapsulationExample.java:5-28 | from the default age 0, any sequence of setter calls leaves the age 0 or positive |
| `NameAge.ReplayAgeWasRequested` | introduction-to-programming/examples/EncapsulationExample.java:23-28 | after any setter calls the age is the starting one or a positive age that some call passed |
| `NameAge.ReplayNameWasRequested` | introduction-to-programming/examples/EncapsulationExample.java:13-15 | after any setter calls the name is the starting one or a name that some call passed |
| `NameAge.NameCallsKeepAge` | introduction-to-programming/examples/EncapsulationExample.java:13-15 | calls to the name setter alone never change the age |
| `NameAge.AgeCallsKeepName` | introduction-to-programming/examples/EncapsulationExample.java:23-28 | calls to the age setter alone never change the name |
| `Encapsulation.Person.constructor` | introduction-to-programming/examples/EncapsulationExample.java:2-5 | a new Person has no name (Java's null) and age 0, which satisfies the age invariant |
| `Encapsulation.Person.GetName` | introduction-to-programming/examples/EncapsulationExample.java:8-10 | returns the name and changes nothing |
| `Encapsulation.Person.SetName` | introduction-to-programming/examples/EncapsulationExample.java:13-15 | stores any name unconditionally and keeps the age; follows `NameAge.Apply` |
| `Encapsulation.Person.GetAge` | introduction-to-programming/examples/EncapsulationExample.java:18-20 | returns the age and changes nothing |
| `Encapsulation.Person.SetAge` | introduction-to-programming/examples/EncapsulationExample.java:23-28 | stores a positive age, leaves the age unchanged otherwise, keeps the name, preserves "age is 0 or positive"; follows `NameAge.Apply` |
| `Encapsulation.Demo` | introduction-to-programming/examples/EncapsulationExample.java:34-42 | after setting "Craig" and 40 the getters return "Craig" and 40 |
| `StudentRecord.Student.constructor` | introduction-to-programming/examples/Student.java:1-4 | a new Student has no name (Java's null) and age 0, which satisfies the age invariant |
| `StudentRecord.Student.GetName` | introduction-to-programming/examples/Student.java:7-9 | returns the name and changes nothing |
| `StudentRecord.Student.SetName` | introduction-to-programming/examples/Student.java:12-14 | stores any name unconditionally and keeps the age; follows `NameAge.Apply` |
| `StudentRecord.Student.GetAge` | introduction-to-programming/examples/Student.java:17-19 | returns the age and changes nothing |
| `StudentRecord.Student.SetAge` | introduction-to-programming/examples/Student.java:22-28 | stores a positive age, leaves the age unchanged otherwise, keeps the name, preserves "age is 0 or positive"; follows `NameAge.Apply` |
| `StudentRecord.Demo` | introduction-to-programming/examples/Student.java:31-38 | after setting "Alice" and 20 the getters return "Alice" and 20 |
| `Books.BookDefault` | introduction-to-programming/examples/Book.java:7-11 | the no-argument book is titled "Untitled", by "Unknown", with 0 pages |
| `Books.BookTitled` | introduction-to-programming/examples/Book.java:14-18 | the two-argument book keeps the given title and author and has 100 pages |
| `Books.BookFull` | introduction-to-programming/examples/Book.java:21-25 | the three-argument book keeps all three values verbatim, any page count included |
| `Books.TitledIsFullWithHundred` | introduction-to-programming/examples/Book.java:14-25 | the two-argument book is the three-argument book with 100 pages, and no other page count gives the same book |
| `Books.DefaultIsFull` | introduction-to-programming/examples/Book.java:7-25 | the no-argument book is the three-argument book with its defaults and differs from every two-argument book |
| `Books.HobbitDemo` | introduction-to-programming/examples/Book.java:34-36 | "The Hobbit" keeps its 310 pages and "1984" gets the default 100 |
| `YearOfBirth.BirthYear` | introduction-to-programming/examples/YearOfBirthWithMonth.java:15-22 | the estimate is the current year minus the age, or one year less, and it is one year less exactly when the birth month is later than the current month; defined for all integers |
| `YearOfBirth.AgeAt` | introduction-to-programming/examples/YearOfBirthWithMonth.java:17-22 | reference definition: the completed years from a birth year and month to the current year and month, counting a birthday in the current month as passed |
| `YearOfBirth.BirthYearRecoversYear` | introduction-to-programming/examples/YearOfBirthWithMonth.java:15-22 | given the true age, the estimate is the true birth year |
| `YearOfBirth.AgeAtRecoversAge` | introduction-to-programming/examples/YearOfBirthWithMonth.java:15-22 | someone born in the estimated year and month is of the stated age |
| `YearOfBirth.OlderIsOneYearEarlier` | introduction-to-programming/examples/YearOfBirthWithMonth.java:18-21 | one more year of age gives a birth year exactly one earlier |
| `YearOfBirth.LaterMonthNotLaterYear` | introduction-to-programming/examples/YearOfBirthWithMonth.java:18-21 | a later birth month never gives a later birth year |

## Left out

- Console output: every `System.out.println`, `BankAccount.displayBalance`,
  `Book.display` and the warning printed on a rejected call. A rejection is
  modelled as "nothing changes".
- Floating point: `BankAccount.balance` is a Java `double`; the model uses
  exact reals, so rounding of repeated deposits and withdrawals is not
  captured, and neither are overflow to infinity nor NaN. With doubles,
  `deposit` of positive infinity (or two deposits of the largest double)
  makes the balance infinite, and a following `withdraw` of infinity passes
  its guard and leaves NaN, which is not at or above zero. The
  non-negativity results (`Ledger.Withdrawn`, `Ledger.RunKeepsNonNegative`,
  `Ledger.BankAccount.Deposit`, `Ledger.BankAccount.Withdraw`) therefore
  hold only for finite amounts and balances.
- Java's 32-bit `int` overflow in the birth-year arithmetic, in `Book.pages`
  and in the ages; the model uses unbounded integers.
- Null references passed in: a null `accountHolder`, title, author or new
  name is not modelled (strings are always values); only the name a Person or
  Student starts with before any `setName` is modelled as absent.
- The `Scanner` input and the `LocalDate.now()` clock of
  `YearOfBirthWithMonth`: the current year and month, the age and the birth
  month are parameters of `BirthYear`.
- Aliasing and concurrent access to an account or a person: each method is
  modelled as running to completion on one object.
- The demonstration files whose methods only print or read input
  (Notification, Main, Dog, AbstractionExample, LoopExample, DoWhileExample,
  SwitchExample, HelloWorld) are not part of this model.
