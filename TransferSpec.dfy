/** The value-level specification of one call of
    TransferService.performRandomTransfer, taken as one atomic step: the
    balances of the accounts (by index), the success counter and the
    semaphore's permit count, and what one attempt does to them. The random
    choices of the source are the fields of a Choice. */
module TransferSpec {

  /** The state the transfer step reads and writes. */
  datatype Bank = Bank(balances: seq<int>, count: int, permits: int)

  /** The state after an attempt, and whether the attempt moved money. */
  datatype Outcome = Outcome(after: Bank, success: bool)

  /** The random draws of one attempt: two account indices and an amount. */
  datatype Choice = Choice(src: int, dst: int, amount: int)

  /** random.nextInt(1000) + 1 draws from 1..MaxAmount. */
  const MaxAmount: int := 1000

  /** What the random draws guarantee: an amount in 1..MaxAmount and, when
      there are at least two accounts, two distinct indices in range. */
  predicate ValidChoice(n: int, c: Choice) {
    && 1 <= c.amount <= MaxAmount
    && (n >= 2 ==> 0 <= c.src < n && 0 <= c.dst < n && c.src != c.dst)
  }

  /** The total money in the bank, the end-to-end check of the application. */
  function Sum(s: seq<int>): int {
    if s == [] then 0 else Sum(s[..|s| - 1]) + s[|s| - 1]
  }

  lemma {:induction false} SumUpdate(s: seq<int>, i: int, v: int)
    requires 0 <= i < |s|
    ensures Sum(s[i := v]) == Sum(s) - s[i] + v
  {
    var t := s[i := v];
    if i < |s| - 1 {
      assert t[..|t| - 1] == s[..|s| - 1][i := v];
      SumUpdate(s[..|s| - 1], i, v);
    } else {
      assert t[..|t| - 1] == s[..|s| - 1];
    }
  }

  /** The new balances after moving amount from src to dst. */
  function Moved(s: seq<int>, src: int, dst: int, amount: int): seq<int>
    requires 0 <= src < |s| && 0 <= dst < |s|
  {
    s[src := s[src] - amount][dst := s[dst] + amount]
  }

  /** One attempt, in the order of the source: take a permit without
      waiting (none left: fail, nothing changes); with fewer than two
      accounts, fail and keep the permit taken; otherwise move the money if
      the source holds at least the amount, counting the success and keeping
      the permit, or else fail and give the permit back. */
  function Step(b: Bank, c: Choice): (r: Outcome)
    requires ValidChoice(|b.balances|, c)
    ensures |r.after.balances| == |b.balances|
  {
    if b.permits <= 0 then Outcome(b, false)
    else if |b.balances| < 2 then Outcome(b.(permits := b.permits - 1), false)
    else if b.balances[c.src] >= c.amount then
      Outcome(Bank(Moved(b.balances, c.src, c.dst, c.amount), b.count + 1, b.permits - 1), true)
    else Outcome(b, false)
  }

  /** The state a fresh service starts in. */
  function Init(balances: seq<int>, maxTransactions: int): Bank {
    Bank(balances, 0, maxTransactions)
  }

  /** The bookkeeping invariant of the counter and the permits: every permit
      taken is either still out (leaked by an attempt with fewer than two
      accounts) or turned into a counted success; with two or more accounts
      none is ever leaked. */
  ghost predicate Inv(b: Bank, maxTransactions: int) {
    CountersInv(|b.balances|, b.count, b.permits, maxTransactions)
  }

  /** Inv, stated on the number of accounts and the two counters alone. */
  ghost predicate CountersInv(n: int, count: int, permits: int, maxTransactions: int) {
    && 0 <= count
    && count + permits <= maxTransactions
    && (n >= 2 ==> count + permits == maxTransactions)
    && (permits >= 0 || count == 0)
  }

  predicate NonNegative(s: seq<int>) {
    forall i :: 0 <= i < |s| ==> s[i] >= 0
  }

  // ---------------------------------------------------------------------
  // Properties of one attempt
  // ---------------------------------------------------------------------

  lemma InitEstablishesInv(balances: seq<int>, maxTransactions: int)
    ensures Inv(Init(balances, maxTransactions), maxTransactions)
  {
  }

  /** No permit left: the attempt fails and nothing changes. */
  lemma StepNoPermit(b: Bank, c: Choice)
    requires ValidChoice(|b.balances|, c)
    requires b.permits <= 0
    ensures Step(b, c) == Outcome(b, false)
  {
  }

  /** Fewer than two accounts: the attempt fails, no balance and not the
      counter changes, and the permit taken is not given back. */
  lemma StepTooFewAccounts(b: Bank, c: Choice)
    requires ValidChoice(|b.balances|, c)
    requires b.permits > 0 && |b.balances| < 2
    ensures var r := Step(b, c);
      && !r.success
      && r.after.balances == b.balances
      && r.after.count == b.count
      && r.after.permits == b.permits - 1
  {
  }

  /** Insufficient funds: the attempt fails and the state is as before,
      including the permit, which was taken and returned. */
  lemma StepInsufficientFunds(b: Bank, c: Choice)
    requires ValidChoice(|b.balances|, c)
    requires |b.balances| >= 2 && b.balances[c.src] < c.amount
    ensures Step(b, c) == Outcome(b, false)
  {
  }

  /** Success: the source loses the amount, the destination gains it, and
      every other account keeps its balance. A failed attempt changes no
      balance. */
  lemma StepBalances(b: Bank, c: Choice)
    requires ValidChoice(|b.balances|, c)
    ensures var r := Step(b, c);
      && (r.success ==>
            && r.after.balances[c.src] == b.balances[c.src] - c.amount
            && r.after.balances[c.dst] == b.balances[c.dst] + c.amount
            && forall k :: 0 <= k < |b.balances| && k != c.src && k != c.dst ==>
                 r.after.balances[k] == b.balances[k])
      && (!r.success ==> r.after.balances == b.balances)
  {
  }

  /** The attempt succeeds exactly when the permit was available, there are
      two accounts and the source can cover the amount; it succeeds exactly
      when the counter goes up by one, and then one permit is consumed. */
  lemma StepSuccessIff(b: Bank, c: Choice)
    requires ValidChoice(|b.balances|, c)
    ensures var r := Step(b, c);
      && (r.success <==> b.permits > 0 && |b.balances| >= 2 && b.balances[c.src] >= c.amount)
      && (r.success <==> r.after.count == b.count + 1)
      && (!r.success ==> r.after.count == b.count)
      && (r.success ==> r.after.permits == b.permits - 1)
      && (!r.success && |b.balances| >= 2 ==> r.after.permits == b.permits)
  {
  }

  /** Conservation: one attempt never changes the total. */
  lemma StepConservesTotal(b: Bank, c: Choice)
    requires ValidChoice(|b.balances|, c)
    ensures Sum(Step(b, c).after.balances) == Sum(b.balances)
  {
    var r := Step(b, c);
    if r.success {
      var s := b.balances;
      var s1 := s[c.src := s[c.src] - c.amount];
      SumUpdate(s, c.src, s[c.src] - c.amount);
      SumUpdate(s1, c.dst, s[c.dst] + c.amount);
    }
  }

  /** The bookkeeping invariant survives every attempt. */
  lemma StepPreservesInv(b: Bank, c: Choice, maxTransactions: int)
    requires ValidChoice(|b.balances|, c)
    requires Inv(b, maxTransactions)
    ensures Inv(Step(b, c).after, maxTransactions)
  {
  }

  /** With a non-negative maximum, the invariant bounds the counter. */
  lemma InvBoundsCount(b: Bank, maxTransactions: int)
    requires Inv(b, maxTransactions) && maxTransactions >= 0
    ensures 0 <= b.count <= maxTransactions
  {
  }

  /** Once the counter has reached the maximum, every further attempt
      fails without touching anything: no permit is left. */
  lemma StepAtLimit(b: Bank, c: Choice, maxTransactions: int)
    requires ValidChoice(|b.balances|, c)
    requires Inv(b, maxTransactions)
    requires b.count >= maxTransactions
    ensures Step(b, c) == Outcome(b, false)
  {
  }

  /** An amount is only debited from a balance that covers it, so no
      balance goes negative. */
  lemma StepPreservesNonNegative(b: Bank, c: Choice)
    requires ValidChoice(|b.balances|, c)
    requires NonNegative(b.balances)
    ensures NonNegative(Step(b, c).after.balances)
  {
  }

  // ---------------------------------------------------------------------
  // Sequences of attempts
  // ---------------------------------------------------------------------

  /** The attempts performed one after another. */
  function Run(b: Bank, cs: seq<Choice>): (r: Bank)
    requires forall c :: c in cs ==> ValidChoice(|b.balances|, c)
    ensures |r.balances| == |b.balances|
    decreases |cs|
  {
    if cs == [] then b else Run(Step(b, cs[0]).after, cs[1..])
  }

  /** Any sequence of attempts keeps the total, the end-to-end check of the
      application. */
  lemma {:induction false} RunConservesTotal(b: Bank, cs: seq<Choice>)
    requires forall c :: c in cs ==> ValidChoice(|b.balances|, c)
    ensures Sum(Run(b, cs).balances) == Sum(b.balances)
    decreases |cs|
  {
    if cs != [] {
      StepConservesTotal(b, cs[0]);
      RunConservesTotal(Step(b, cs[0]).after, cs[1..]);
    }
  }

  /** Any sequence of attempts from the initial state keeps the invariant,
      so the counter never passes a non-negative maximum. */
  lemma {:induction false} RunPreservesInv(b: Bank, cs: seq<Choice>, maxTransactions: int)
    requires forall c :: c in cs ==> ValidChoice(|b.balances|, c)
    requires Inv(b, maxTransactions)
    ensures Inv(Run(b, cs), maxTransactions)
    ensures maxTransactions >= 0 ==> Run(b, cs).count <= maxTransactions
    decreases |cs|
  {
    if cs != [] {
      StepPreservesInv(b, cs[0], maxTransactions);
      RunPreservesInv(Step(b, cs[0]).after, cs[1..], maxTransactions);
    }
  }

  /** Non-negative balances stay non-negative over any sequence of attempts. */
  lemma {:induction false} RunPreservesNonNegative(b: Bank, cs: seq<Choice>)
    requires forall c :: c in cs ==> ValidChoice(|b.balances|, c)
    requires NonNegative(b.balances)
    ensures NonNegative(Run(b, cs).balances)
    decreases |cs|
  {
    if cs != [] {
      StepPreservesNonNegative(b, cs[0]);
      RunPreservesNonNegative(Step(b, cs[0]).after, cs[1..]);
    }
  }
}
