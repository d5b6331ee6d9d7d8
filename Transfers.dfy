/** The transfer service: a fixed array of accounts, the success counter and
    the permit count of the admission semaphore, and the single-transfer
    step. Each call is one atomic step; the two account monitors are not
    modelled, only the order in which they are taken. */
module Transfers {
  import opened JavaLang
  import opened Accounts
  import opened TransferSpec

  /** The order in which the two account monitors are taken: first the
      source if its identifier compares smaller, otherwise the destination.
      The same pair comes out whichever way the money flows. */
  function LockOrder(from: Account, to: Account): (locks: (Account, Account))
    ensures (locks.0 == from && locks.1 == to) || (locks.0 == to && locks.1 == from)
    ensures from.id != to.id ==> CompareTo(locks.0.id, locks.1.id) < 0
    ensures from.id == to.id ==> locks == (to, from)
  {
    CompareToAntisymmetric(from.id, to.id);
    CompareToZero(from.id, to.id);
    if CompareTo(from.GetId(), to.GetId()) < 0 then (from, to) else (to, from)
  }

  /** For accounts with distinct identifiers, swapping source and
      destination gives the same lock order. */
  lemma LockOrderSymmetric(a: Account, b: Account)
    requires a.id != b.id
    ensures LockOrder(a, b) == LockOrder(b, a)
  {
    CompareToAntisymmetric(a.id, b.id);
    CompareToZero(a.id, b.id);
  }

  class TransferService {
    const accounts: array<Account>
    const maxTransactions: int
    /** The number of transfers that moved money. */
    var transactionCount: int
    /** The permits left in the admission semaphore. */
    var permits: int

    /** The account objects the service may update. */
    ghost function Holders(): set<Account>
      reads accounts
    {
      set k | 0 <= k < accounts.Length :: accounts[k]
    }

    /** The balances, by index. */
    ghost function Balances(): (s: seq<int>)
      reads accounts, Holders()
      ensures |s| == accounts.Length
      ensures forall k :: 0 <= k < accounts.Length ==> s[k] == accounts[k].money
    {
      seq(accounts.Length, k requires 0 <= k < accounts.Length reads accounts, Holders() =>
        accounts[k].money)
    }

    /** The service's state as a value of the specification. */
    ghost function View(): Bank
      reads this, accounts, Holders()
    {
      Bank(Balances(), transactionCount, permits)
    }

    /** Inv of the specification; it does not depend on the balances. */
    ghost predicate Valid()
      reads this
    {
      CountersInv(accounts.Length, transactionCount, permits, maxTransactions)
    }

    lemma BalancesAre(s: seq<int>)
      requires |s| == accounts.Length
      requires forall k :: 0 <= k < accounts.Length ==> accounts[k].money == s[k]
      ensures Balances() == s
    {
    }

    /** No account object sits at two indices (implied by distinct ids). */
    ghost predicate DistinctAccounts()
      reads accounts
    {
      forall i, j :: 0 <= i < j < accounts.Length ==> accounts[i] != accounts[j]
    }

    constructor (accounts: array<Account>, maxTransactions: int)
      ensures this.accounts == accounts && this.maxTransactions == maxTransactions
      ensures View() == Init(Balances(), maxTransactions)
      ensures Valid()
    {
      this.accounts := accounts;
      this.maxTransactions := maxTransactions;
      transactionCount := 0;
      permits := maxTransactions;
    }

    predicate CanPerformTransfer(): (r: bool)
      ensures r <==> accounts.Length >= 2
    {
      accounts.Length >= 2
    }

    /** The counter, which never passes the maximum less the permits left. */
    function GetTransactionCount(): (r: int)
      reads this
      requires Valid()
      ensures 0 <= r && r + permits <= maxTransactions
      ensures maxTransactions >= 0 ==> r <= maxTransactions
    {
      transactionCount
    }

    function GetMaxTransactions(): (r: int)
      ensures r == maxTransactions
    {
      maxTransactions
    }

    /** The guard that ends a worker's loop: the limit is reached or there
        are too few accounts. */
    predicate WorkerShouldStop(): (r: bool)
      reads this
      requires Valid()
      ensures r <==> transactionCount >= maxTransactions || accounts.Length < 2
    {
      GetTransactionCount() >= GetMaxTransactions() || !CanPerformTransfer()
    }

    /** With two or more accounts, a worker stops exactly when no permit is
        left, that is, exactly when every further attempt would fail. */
    lemma WorkerStopsWhenPermitsRunOut()
      requires Valid() && CanPerformTransfer()
      ensures WorkerShouldStop() <==> permits <= 0
    {
    }

    /** The critical section, run while both monitors are held in
        LockOrder: debit the source and credit the destination if the source
        covers the amount. The two indices differ, but the same object may
        sit at both. */
    method MoveMoney(src: int, dst: int, amount: int) returns (success: bool)
      requires 0 <= src < accounts.Length && 0 <= dst < accounts.Length && src != dst
      modifies accounts[src], accounts[dst]
      ensures success <==> old(accounts[src].money) >= amount
      ensures forall k :: 0 <= k < accounts.Length ==>
        accounts[k].money == old(accounts[k].money)
                             - (if success && accounts[k] == accounts[src] then amount else 0)
                             + (if success && accounts[k] == accounts[dst] then amount else 0)
    {
      var from := accounts[src];
      var to := accounts[dst];
      var (firstLock, secondLock) := LockOrder(from, to);
      success := false;
      if from.GetMoney() >= amount {
        from.SetMoney(from.GetMoney() - amount);
        to.SetMoney(to.GetMoney() + amount);
        success := true;
      }
    }

    /** One attempt. The random draws are parameters: the indices src and
        dst of the source and destination accounts and the amount. */
    method PerformRandomTransfer(src: int, dst: int, amount: int) returns (success: bool)
      requires Valid()
      requires ValidChoice(accounts.Length, Choice(src, dst, amount))
      modifies this, Holders()
      ensures Valid()
      ensures var r := Step(old(View()), Choice(src, dst, amount));
        && success == r.success
        && transactionCount == r.after.count
        && permits == r.after.permits
      ensures forall k :: 0 <= k < accounts.Length ==>
        accounts[k].money == old(accounts[k].money)
                             - (if success && accounts[k] == accounts[src] then amount else 0)
                             + (if success && accounts[k] == accounts[dst] then amount else 0)
      ensures DistinctAccounts() ==>
        forall k :: 0 <= k < accounts.Length ==>
          accounts[k].money == Step(old(View()), Choice(src, dst, amount)).after.balances[k]
      ensures DistinctAccounts() ==> Sum(Balances()) == old(Sum(Balances()))
    {
      ghost var before := View();
      ghost var choice := Choice(src, dst, amount);
      success := false;
      // tryAcquire: fail at once when no permit is left
      if permits > 0 {
        permits := permits - 1;
        // returns outside the try/finally: the permit is not given back
        if CanPerformTransfer() {
          success := MoveMoney(src, dst, amount);
          if success {
            transactionCount := transactionCount + 1;
          }
          // finally: give the permit back unless money moved
          if !success {
            permits := permits + 1;
          }
        }
      }
      ghost var r := Step(before, choice);
      assert success == r.success && transactionCount == r.after.count && permits == r.after.permits;
      if DistinctAccounts() {
        StepBalances(before, choice);
        assert forall k :: 0 <= k < accounts.Length ==> accounts[k].money == r.after.balances[k];
        BalancesAre(r.after.balances);
        StepConservesTotal(before, choice);
      }
    }
  }

  /** Two accounts of 100 and a limit of one transfer: moving 50 succeeds
      and leaves 50 and 150; a second attempt finds no permit and changes
      nothing. With a balance of 0 at the source, an attempt fails and the
      permit stays available. */
  method SingleTransferScenario() {
    var a := new Account("account-0", 100);
    var b := new Account("account-1", 100);
    var accounts := new Account[2][a, b];
    var service := new TransferService(accounts, 1);
    service.BalancesAre([100, 100]);
    var ok := service.PerformRandomTransfer(0, 1, 50);
    assert ok && a.money == 50 && b.money == 150 && service.transactionCount == 1;
    assert service.permits == 0;
    ok := service.PerformRandomTransfer(1, 0, 10);
    assert !ok && a.money == 50 && b.money == 150 && service.transactionCount == 1;
  }

  method InsufficientFundsScenario() {
    var poor := new Account("account-0", 0);
    var rich := new Account("account-1", 100);
    var accounts := new Account[2][poor, rich];
    var service := new TransferService(accounts, 5);
    service.BalancesAre([0, 100]);
    var ok := service.PerformRandomTransfer(0, 1, 1);
    assert !ok && poor.money == 0 && rich.money == 100;
    assert service.permits == 5 && service.transactionCount == 0;
  }
}
