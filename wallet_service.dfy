/** The wallet service (Application/Services/WalletService.cs): owns one
    wallet and forwards to it. Logging is left out. */
module WalletServices {
  import opened Common
  import opened Wallets

  /** `PlaceBet(bet, win)`: debit the bet, then credit the win, as two
      separate wallet operations. If the debit is rejected nothing changes;
      if the credit is rejected the debit has already happened. Either way the
      balance stays non-negative. */
  function PlaceBetEffect(balance: real, bet: real, win: real): (s: Step)
    ensures balance >= 0.0 ==> s.balance >= 0.0
  {
    var debit := Apply(balance, ApplyBet(bet));
    if debit.outcome.Fail? then debit else Apply(debit.balance, ApplyWin(win))
  }

  /** A bet within the balance and a non-negative win settle as
      balance - bet + win; a zero win only subtracts the bet. */
  lemma PlaceBetSettles(balance: real, bet: real, win: real)
    requires 0.0 < bet <= balance && win >= 0.0
    ensures PlaceBetEffect(balance, bet, win) == Step(Pass, balance - bet + win)
    ensures PlaceBetEffect(balance, bet, win).balance >= win
  {
  }

  /** An invalid bet is rejected before anything changes: a non-positive bet
      with the withdrawal message, a bet above the balance as insufficient funds. */
  lemma PlaceBetRejectsBet(balance: real, bet: real, win: real)
    ensures bet <= 0.0 ==>
      PlaceBetEffect(balance, bet, win) == Step(Fail(InvalidArgument(WithdrawalMessage)), balance)
    ensures bet > 0.0 && bet > balance ==>
      PlaceBetEffect(balance, bet, win) == Step(Fail(InvalidOperation(InsufficientFundsMessage)), balance)
  {
  }

  /** Settlement is not atomic: a negative win is rejected after the bet has
      already been debited. */
  lemma PlaceBetNegativeWinKeepsDebit(balance: real, bet: real, win: real)
    requires 0.0 < bet <= balance && win < 0.0
    ensures PlaceBetEffect(balance, bet, win) == Step(Fail(InvalidArgument(NegativeWinMessage)), balance - bet)
  {
  }

  /** Once the bet is accepted, placing it is running the two wallet
      operations in sequence. */
  lemma {:induction false} PlaceBetIsBetThenWin(balance: real, bet: real, win: real)
    requires 0.0 < bet <= balance
    ensures PlaceBetEffect(balance, bet, win).balance == Run(balance, [ApplyBet(bet), ApplyWin(win)])
  {
    var ops := [ApplyBet(bet), ApplyWin(win)];
    var debited := Apply(balance, ApplyBet(bet)).balance;
    assert ops[1..] == [ApplyWin(win)];
    assert [ApplyWin(win)][1..] == [];
    calc {
      Run(balance, ops);
      Run(debited, [ApplyWin(win)]);
      Run(Apply(debited, ApplyWin(win)).balance, []);
    }
  }

  /** Deposit 100, withdraw 30, then bet 20 winning 40 leaves 90; deposit 100
      then bet 20 winning 50 leaves 130; deposit 100 then bet 10 winning 0 leaves 90. */
  lemma LedgerScenarios()
    ensures PlaceBetEffect(WithdrawEffect(DepositEffect(0.0, 100.0).balance, 30.0).balance, 20.0, 40.0).balance == 90.0
    ensures PlaceBetEffect(DepositEffect(0.0, 100.0).balance, 20.0, 50.0).balance == 130.0
    ensures PlaceBetEffect(DepositEffect(0.0, 100.0).balance, 10.0, 0.0).balance == 90.0
  {
  }

  class WalletService {
    const wallet: Wallet

    ghost predicate Valid()
      reads this, wallet
    {
      wallet.Valid()
    }

    /** The service starts with a new, empty wallet. */
    constructor ()
      ensures Valid() && fresh(wallet) && wallet.balance == 0.0
    {
      wallet := new Wallet();
    }

    /** Reads the balance; changes nothing. */
    method GetBalance() returns (b: real)
      requires Valid()
      ensures b == wallet.balance && b >= 0.0
    {
      b := wallet.balance;
    }

    method Deposit(amount: real) returns (o: Outcome)
      requires Valid()
      modifies wallet
      ensures Valid()
      ensures Step(o, wallet.balance) == DepositEffect(old(wallet.balance), amount)
    {
      o := wallet.Deposit(amount);
    }

    method Withdraw(amount: real) returns (o: Outcome)
      requires Valid()
      modifies wallet
      ensures Valid()
      ensures Step(o, wallet.balance) == WithdrawEffect(old(wallet.balance), amount)
    {
      o := wallet.Withdraw(amount);
    }

    method PlaceBet(bet: real, win: real) returns (o: Outcome)
      requires Valid()
      modifies wallet
      ensures Valid()
      ensures Step(o, wallet.balance) == PlaceBetEffect(old(wallet.balance), bet, win)
    {
      o := wallet.ApplyBet(bet);
      if o.Fail? {
        return;
      }
      o := wallet.ApplyWin(win);
    }
  }
}
