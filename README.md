# Bank transfers: a Dafny model of the transfer step

The bank keeps a fixed list of accounts, each with a unique string
identifier and an `int` balance. Worker threads call
`TransferService.performRandomTransfer` over and over. Each call picks two
different accounts and an amount from 1 to 1000 at random. The call first
takes a permit from a semaphore that starts at `maxTransactions`. It then
locks the two accounts, the one whose identifier compares smaller first. It
moves the money if the source can cover it. On success it counts the
transfer; otherwise it gives the permit back. The application checks at the
end that the total money is unchanged.

This project models that step as one atomic, sequential call:

- `JavaLang.dfy` holds the Java library behaviour the code relies on:
  `String.compareTo`, used to choose the lock order, with the lemmas that
  make it a strict total order; `String.hashCode` and `Objects.hash` with
  32-bit wrap-around; the decimal rendering of an `int`, with a parser as
  its inverse.
- `Accounts.dfy` holds the class `Account`. It has a constant identifier
  and a mutable `money` field. Its getters, `SetMoney`, `Equals`,
  `HashCode` and `ToString` follow `Account.java`. `GetId` and `GetMoney`
  are plain field reads; `SetMoney` states what they return afterwards.
- `TransferSpec.dfy` holds the value-level specification. A `Bank` has the
  balances by index, the success counter and the permit count. `Step` is
  one attempt and `Run` is a sequence of attempts. The lemmas cover
  conservation of the total, which balances change, the counter/permit
  bookkeeping, the bound on successes and non-negative balances.
- `Transfers.dfy` holds the class `TransferService`. It has a constant
  array of `Account` objects, the counter and the permit count.
  `PerformRandomTransfer` updates the accounts in place and is proved
  against `Step`. `LockOrder` is the choice of which monitor to take first.
  `CanPerformTransfer` and `GetMaxTransactions` are plain reads.
  `WorkerShouldStop` is the stop test of the worker loop in
  `TransferRunnable`. Two client methods replay two small two-account scenarios:
  one transfer of 50 under a limit of one, and a source with no money.

The random draws are parameters of `PerformRandomTransfer`: `src`, `dst`
and `amount`. Its precondition `ValidChoice` says only what the draws
guarantee: an amount in 1..1000 and, when there are at least two accounts,
two distinct indices in range. Nothing is required when there are fewer
than two accounts, because the code returns before drawing indices.

Two behaviours of the code shape the model:

- With fewer than two accounts, the code takes a permit at
  `TransferService.java:39` and returns at lines 43-45, outside the
  `try/finally`, so the permit is never returned. In the model the permit count drops by one and
  stays dropped. The invariant `permits + count == maxTransactions`
  therefore holds only with two or more accounts. With fewer,
  `permits + count <= maxTransactions` holds instead (`TransferSpec.Inv`).
- The code does not reject a negative `maxTransactions`; the semaphore then
  starts with negative permits and every attempt fails. The model accepts
  any maximum. The counter bound `count <= maxTransactions` is stated for a
  non-negative maximum.
- The service's queries are `getTransactionCount`, `getMaxTransactions`
  and `canPerformTransfer`; all are modelled.

## Model

| member | source | states |
|---|---|---|
| JavaLang.CompareTo | src/main/java/org/sav/TransferService.java:59 | `String.compareTo`: the first character difference, else the length difference; zero for equal strings, and minus the other length when the first string is empty |
| JavaLang.CompareToAntisymmetric | src/main/java/org/sav/TransferService.java:59 | `compareTo(b, a) == -compareTo(a, b)` for all strings |
| JavaLang.CompareToZero | src/main/java/org/sav/TransferService.java:59 | `compareTo` is zero exactly when the strings are equal |
| JavaLang.CompareToTransitive | src/main/java/org/sav/TransferService.java:58-65 | "compares smaller" is transitive, so the lock order is a strict total order on identifiers |
| JavaLang.StringHashCode | src/main/java/org/sav/Account.java:38 | `String.hashCode` (`31 * h + c` per character) is a 32-bit int |
| JavaLang.ObjectsHash1 | src/main/java/org/sav/Account.java:38 | `Objects.hash(id)` is a 32-bit int, equal to `31 + hash(id)` when that does not overflow |
| JavaLang.NatToString | src/main/java/org/sav/Account.java:43 | decimal digits only, no leading zero except for 0 |
| JavaLang.IntToString | src/main/java/org/sav/Account.java:43 | the text of an int is non-empty and starts with '-' exactly for negatives |
| JavaLang.NatToStringRoundTrip | src/main/java/org/sav/Account.java:43 | the digits of a natural number read back as that number |
| JavaLang.IntToStringRoundTrip | src/main/java/org/sav/Account.java:43 | the rendered balance parses back to the same int |
| Accounts.Account.constructor | src/main/java/org/sav/Account.java:11-14 | stores the identifier and the initial balance unchanged |
| Accounts.Account.GetId | src/main/java/org/sav/Account.java:16-18 | returns the stored identifier |
| Accounts.Account.GetMoney | src/main/java/org/sav/Account.java:20-22 | returns the current balance |
| Accounts.Account.SetMoney | src/main/java/org/sav/Account.java:20-26 | afterwards `GetMoney()` is the new value; only `money` may change, and the identifier is a constant |
| Accounts.Account.Equals | src/main/java/org/sav/Account.java:28-34 | true for the same object, false for null, and otherwise true exactly for an `Account` with the same identifier, whatever the balances |
| Accounts.Account.HashCode | src/main/java/org/sav/Account.java:36-39 | a 32-bit int computed from the identifier alone |
| Accounts.HashCodeConsistent | src/main/java/org/sav/Account.java:29-39 | equal accounts have equal hash codes |
| Accounts.EqualsSymmetric | src/main/java/org/sav/Account.java:29-34 | `a.Equals(b)` exactly when `b.Equals(a)` |
| Accounts.Account.ToString | src/main/java/org/sav/Account.java:41-44 | the text is `Account[id = `, the identifier, `, money = `, the balance, `]`; the identifier and the balance read back from their positions |
| TransferSpec.SumUpdate | src/main/java/org/sav/BankApplication.java:46 | overwriting one balance changes the total by the difference |
| TransferSpec.Step | src/main/java/org/sav/TransferService.java:36-115 | one attempt keeps the number of accounts; its cases are stated by the lemmas below |
| TransferSpec.InitEstablishesInv | src/main/java/org/sav/TransferService.java:23-29 | a new service (count 0, permits = maximum) satisfies the counter/permit invariant |
| TransferSpec.StepNoPermit | src/main/java/org/sav/TransferService.java:39-41 | no permit left: fails, and balances, counter and permits are unchanged |
| TransferSpec.StepTooFewAccounts | src/main/java/org/sav/TransferService.java:39-45 | fewer than two accounts: fails, balances and counter unchanged, one permit consumed and not returned |
| TransferSpec.StepInsufficientFunds | src/main/java/org/sav/TransferService.java:77-113 | source below the amount: fails and the whole state is unchanged, the permit having been returned |
| TransferSpec.StepBalances | src/main/java/org/sav/TransferService.java:77-80 | on success the source loses the amount, the destination gains it, every other balance is unchanged; on failure no balance changes |
| TransferSpec.StepSuccessIff | src/main/java/org/sav/TransferService.java:103-113 | success exactly when a permit was free, there are two accounts and the source covers the amount; success exactly when the counter rises by one, which consumes one permit; a failure with two accounts returns its permit |
| TransferSpec.StepConservesTotal | src/main/java/org/sav/TransferService.java:77-80 | one attempt leaves the sum of all balances unchanged |
| TransferSpec.StepPreservesInv | src/main/java/org/sav/TransferService.java:36-115 | `count >= 0`, `count + permits <= max`, equality with two or more accounts, and `permits >= 0 or count == 0` survive every attempt |
| TransferSpec.InvBoundsCount | src/main/java/org/sav/TransferService.java:27-28 | under the invariant and a non-negative maximum, `0 <= count <= max` |
| TransferSpec.StepAtLimit | src/main/java/org/sav/TransferService.java:39-40 | with the counter at the maximum, no permit is left, so every attempt fails and changes nothing, whatever the number of accounts |
| TransferSpec.StepPreservesNonNegative | src/main/java/org/sav/TransferService.java:74-80 | non-negative balances stay non-negative, since only a covered amount is debited |
| TransferSpec.Run | src/main/java/org/sav/TransferRunnable.java:23-42 | a sequence of attempts keeps the number of accounts |
| TransferSpec.RunConservesTotal | src/main/java/org/sav/BankApplication.java:64-72 | any sequence of attempts leaves the total unchanged, the application's final check |
| TransferSpec.RunPreservesInv | src/main/java/org/sav/TransferService.java:103-113 | any sequence of attempts keeps the invariant, so successes never pass a non-negative maximum |
| TransferSpec.RunPreservesNonNegative | src/main/java/org/sav/TransferService.java:77-79 | non-negative balances stay non-negative over any sequence of attempts |
| Transfers.LockOrder | src/main/java/org/sav/TransferService.java:55-65 | the pair is (source, destination) or (destination, source); the first has the smaller identifier when they differ; with equal identifiers the destination comes first |
| Transfers.LockOrderSymmetric | src/main/java/org/sav/TransferService.java:59-65 | for distinct identifiers, swapping source and destination gives the same lock pair |
| Transfers.TransferService.constructor | src/main/java/org/sav/TransferService.java:23-29 | stores the accounts and the maximum; counter 0, permits = maximum; the invariant holds |
| Transfers.TransferService.GetTransactionCount | src/main/java/org/sav/TransferService.java:126-128 | the counter is non-negative, at most the maximum less the permits left, and at most a non-negative maximum |
| Transfers.TransferService.CanPerformTransfer | src/main/java/org/sav/TransferService.java:122-124 | true exactly when there are at least two accounts |
| Transfers.TransferService.GetMaxTransactions | src/main/java/org/sav/TransferService.java:130-132 | returns the maximum given at construction |
| Transfers.TransferService.WorkerShouldStop | src/main/java/org/sav/TransferRunnable.java:26-35 | the worker stops exactly when the counter has reached the maximum or there are fewer than two accounts |
| Transfers.TransferService.WorkerStopsWhenPermitsRunOut | src/main/java/org/sav/TransferRunnable.java:26-35 | with two or more accounts, the worker's stop test holds exactly when no permit is left |
| Transfers.TransferService.MoveMoney | src/main/java/org/sav/TransferService.java:52-101 | succeeds exactly when the source covers the amount; each account changes by minus the amount if it is the source object and plus the amount if it is the destination object, so an account at both indices is unchanged |
| Transfers.TransferService.PerformRandomTransfer | src/main/java/org/sav/TransferService.java:36-115 | result, counter and permits are those of `Step` on the old state; each balance changes only as the source or destination object of a success; with no account at two indices the balances are those of `Step` and the total is unchanged; the invariant is kept |

## Left out

- Thread safety is not modelled: the `synchronized` monitors, the atomicity of `Semaphore` and `AtomicInteger`, and deadlock freedom under interleavings. Each call is one atomic step. Only the lock-order choice and the total order it rests on are modelled.
- The random draws (`random.ints(...).distinct().limit(2)` and `random.nextInt(1000) + 1`) are parameters, constrained by `TransferSpec.ValidChoice`.
- Log4j logging has no effect on state and is left out.
- `BankApplication` (the entry point, thread pool, timeout and UUID identifiers) is not modelled. Only its total-money check is used, as `TransferSpec.Sum`.
- `TransferRunnable` (sleeping, interrupts, the thread pool) is not modelled. Its stop test is `WorkerShouldStop`, and a sequence of its calls is `TransferSpec.Run`.
- Transfers.TransferService.PerformRandomTransfer: balances are unbounded integers, so the 32-bit wrap-around of `toAccount.getMoney() + amount` is not modelled.
- TransferSpec.Sum: the application's `int` stream sum would wrap around on overflow; the model's sum is unbounded.
- Transfers.TransferService.PerformRandomTransfer: the balances equal those of `Step` only when no account object appears at two indices. Without that, the method states the per-object change. Distinct identifiers, as the application creates them, imply this condition.
- Accounts.Account.Equals: identifiers are non-null strings, so the null handling of `Objects.equals` and `Objects.hash` is not modelled.
- JavaLang.CompareTo and JavaLang.StringHashCode (and so Accounts.Account.HashCode): a Dafny `char` is a Unicode scalar value, while a Java `char` is a UTF-16 code unit, so a supplementary character is one character here and two surrogate units in Java. Comparison and hashing agree with Java on identifiers without supplementary characters, such as the ASCII identifiers the application creates.
- The account list is a fixed array. The `List` is never resized after construction, and a null list is not modelled.
