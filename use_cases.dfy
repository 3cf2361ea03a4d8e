/** The use-case commands (Application/UseCases): each validates its input,
    then delegates to the wallet service and, for a bet, the game service. */
module UseCases {
  import opened Common
  import opened Wallets
  import opened WalletServices
  import opened Games

  // The bet window, both ends included.
  const MinBet: real := 1.0
  const MaxBet: real := 10.0

  /** The outcome of one bet round (Application/Models/GameResult.cs). */
  datatype GameResult = GameResult(betAmount: real, winAmount: real, newBalance: real)

  /** What a bet round leaves behind: the result or the exception it throws,
      the wallet balance afterwards and the draws still pending. */
  datatype Round = Round(result: Result<GameResult>, balance: real, rest: seq<real>)

  /** `BetCommand.Execute(bet)` against a wallet holding `balance` and a
      random source holding `draws`: the range check, then the win, then the
      settlement, then the balance read back. */
  function BetRound(balance: real, draws: seq<real>, bet: real): (r: Round)
    ensures balance >= 0.0 ==> r.balance >= 0.0
  {
    if bet < MinBet || bet > MaxBet then
      Round(Err(ArgumentOutOfRange(BetRangeMessage)), balance, draws)
    else
      var res := Resolve(bet, draws);
      if res.win.Err? then Round(Err(res.win.error), balance, res.rest)
      else
        var settled := PlaceBetEffect(balance, bet, res.win.value);
        if settled.outcome.Fail? then Round(Err(settled.outcome.error), settled.balance, res.rest)
        else Round(Ok(GameResult(bet, res.win.value, settled.balance)), settled.balance, res.rest)
  }

  /** The range check rejects exactly the bets outside [1, 10], before any
      draw is taken or the wallet is touched; both ends are accepted. */
  lemma BetRangeChecked(balance: real, draws: seq<real>, bet: real)
    ensures BetRound(balance, draws, bet).result == Err(ArgumentOutOfRange(BetRangeMessage))
      <==> bet < 1.0 || bet > 10.0
    ensures bet < 1.0 || bet > 10.0 ==>
      BetRound(balance, draws, bet).balance == balance && BetRound(balance, draws, bet).rest == draws
  {
  }

  /** The win is resolved before the wallet is touched: when the source runs
      dry the exhaustion propagates, the balance is unchanged and the draws
      taken are gone. */
  lemma BetRoundExhausted(balance: real, draws: seq<real>, bet: real)
    requires 1.0 <= bet <= 10.0 && Resolve(bet, draws).win.Err?
    ensures BetRound(balance, draws, bet) == Round(Err(DrawSourceExhausted), balance, Resolve(bet, draws).rest)
  {
  }

  /** A bet above the balance fails with insufficient funds after the win has
      been resolved: the balance is unchanged but the draws are used up. */
  lemma BetRoundInsufficientFunds(balance: real, draws: seq<real>, bet: real)
    requires 1.0 <= bet <= 10.0 && bet > balance && Resolve(bet, draws).win.Ok?
    ensures BetRound(balance, draws, bet)
      == Round(Err(InvalidOperation(InsufficientFundsMessage)), balance, Resolve(bet, draws).rest)
  {
  }

  /** With draws from [0, 1) and a bet within the balance, the round succeeds
      and reports the bet, the win and the new balance
      balance - bet + win, which is at least balance - bet. */
  lemma BetRoundSettles(balance: real, draws: seq<real>, bet: real)
    requires AllUnit(draws) && 1.0 <= bet <= 10.0 && bet <= balance && Resolve(bet, draws).win.Ok?
    ensures var w := Resolve(bet, draws).win.value;
      w >= 0.0 &&
      BetRound(balance, draws, bet)
        == Round(Ok(GameResult(bet, w, balance - bet + w)), balance - bet + w, Resolve(bet, draws).rest) &&
      balance - bet + w >= balance - bet >= 0.0
  {
    ResolveWinBounds(bet, draws);
    PlaceBetSettles(balance, bet, Resolve(bet, draws).win.value);
  }

  /** With draws from [0, 1) a round is all or nothing: a failed round leaves
      the balance exactly as it was, since a win is never negative and the
      non-atomic settlement never stops half-way; a successful round reports
      the balance the wallet is left with. */
  lemma BetRoundAllOrNothing(balance: real, draws: seq<real>, bet: real)
    requires AllUnit(draws)
    ensures BetRound(balance, draws, bet).result.Err? ==> BetRound(balance, draws, bet).balance == balance
    ensures BetRound(balance, draws, bet).result.Ok? ==>
      BetRound(balance, draws, bet).result.value.newBalance == BetRound(balance, draws, bet).balance &&
      BetRound(balance, draws, bet).result.value.betAmount == bet
  {
    if 1.0 <= bet <= 10.0 && Resolve(bet, draws).win.Ok? {
      ResolveWinBounds(bet, draws);
    }
  }

  /** With a balance of 100 and a bet of 10: a first draw of 0.3 loses and
      leaves 90; draws (0.6, 0.5) win 15 and leave 105. */
  lemma BetRoundExamples()
    ensures BetRound(100.0, [0.3], 10.0) == Round(Ok(GameResult(10.0, 0.0, 90.0)), 90.0, [])
    ensures BetRound(100.0, [0.6, 0.5], 10.0) == Round(Ok(GameResult(10.0, 15.0, 105.0)), 105.0, [])
  {
    ResolveExamples();
  }

  /** What a deposit or withdrawal command leaves behind: the balance it
      returns or the exception it throws, and the wallet balance afterwards. */
  datatype Reply = Reply(result: Result<real>, balance: real)

  /** The reply to a wallet step followed by a balance read: the read happens
      only when the step succeeded. */
  function ReplyTo(s: Step): Reply {
    if s.outcome.Fail? then Reply(Err(s.outcome.error), s.balance) else Reply(Ok(s.balance), s.balance)
  }

  /** `DepositCommand.Execute(amount)`: the command's own positivity check,
      then the deposit, then the balance read back. */
  function DepositRound(balance: real, amount: real): Reply {
    if amount <= 0.0 then Reply(Err(InvalidArgument(DepositMessage)), balance)
    else ReplyTo(DepositEffect(balance, amount))
  }

  /** `WithdrawCommand.Execute(amount)`: the command's own positivity check,
      then the withdrawal, then the balance read back. */
  function WithdrawRound(balance: real, amount: real): Reply {
    if amount <= 0.0 then Reply(Err(InvalidArgument(WithdrawalMessage)), balance)
    else ReplyTo(WithdrawEffect(balance, amount))
  }

  /** A deposit command returns balance + amount for a positive amount and
      otherwise fails with the deposit message, changing nothing; its check
      agrees with the wallet's own, so it behaves as the wallet does. */
  lemma DepositRoundReplies(balance: real, amount: real)
    ensures DepositRound(balance, amount).result.Ok? <==> amount > 0.0
    ensures amount > 0.0 ==> DepositRound(balance, amount) == Reply(Ok(balance + amount), balance + amount)
    ensures amount <= 0.0 ==> DepositRound(balance, amount) == Reply(Err(InvalidArgument(DepositMessage)), balance)
    ensures DepositRound(balance, amount) == ReplyTo(Apply(balance, Deposit(amount)))
  {
  }

  /** A withdrawal command returns balance - amount exactly when
      0 < amount <= balance (zero when the whole balance is taken); a
      non-positive amount fails with the withdrawal message and one above the
      balance with insufficient funds, changing nothing. */
  lemma WithdrawRoundReplies(balance: real, amount: real)
    ensures WithdrawRound(balance, amount).result.Ok? <==> 0.0 < amount <= balance
    ensures 0.0 < amount <= balance ==> WithdrawRound(balance, amount) == Reply(Ok(balance - amount), balance - amount)
    ensures amount == balance > 0.0 ==> WithdrawRound(balance, amount).result == Ok(0.0)
    ensures amount <= 0.0 ==> WithdrawRound(balance, amount) == Reply(Err(InvalidArgument(WithdrawalMessage)), balance)
    ensures 0.0 < amount && amount > balance ==>
      WithdrawRound(balance, amount) == Reply(Err(InvalidOperation(InsufficientFundsMessage)), balance)
    ensures WithdrawRound(balance, amount) == ReplyTo(Apply(balance, Withdraw(amount)))
  {
  }

  /** Withdrawing what was just deposited gives back the original balance. */
  lemma DepositThenWithdrawRound(balance: real, amount: real)
    requires balance >= 0.0 && amount > 0.0
    ensures WithdrawRound(DepositRound(balance, amount).balance, amount) == Reply(Ok(balance), balance)
  {
  }

  class BetCommand {
    const walletService: WalletService
    const gameService: GameService

    ghost predicate Valid()
      reads this, walletService, walletService.wallet
    {
      walletService.Valid()
    }

    constructor (walletService: WalletService, gameService: GameService)
      requires walletService.Valid()
      ensures Valid() && this.walletService == walletService && this.gameService == gameService
    {
      this.walletService := walletService;
      this.gameService := gameService;
    }

    /** Plays one round: the new balance and the draws left are those of `BetRound`. */
    method Execute(bet: real) returns (r: Result<GameResult>)
      requires Valid()
      modifies walletService.wallet, gameService.random
      ensures Valid()
      ensures Round(r, walletService.wallet.balance, gameService.random.pending)
        == BetRound(old(walletService.wallet.balance), old(gameService.random.pending), bet)
    {
      if bet < MinBet || bet > MaxBet {
        return Err(ArgumentOutOfRange(BetRangeMessage));
      }
      var win := gameService.GenerateWin(bet);
      if win.Err? {
        return Err(win.error);
      }
      var settled := walletService.PlaceBet(bet, win.value);
      if settled.Fail? {
        return Err(settled.error);
      }
      var newBalance := walletService.GetBalance();
      r := Ok(GameResult(bet, win.value, newBalance));
    }
  }

  class DepositCommand {
    const walletService: WalletService

    ghost predicate Valid()
      reads this, walletService, walletService.wallet
    {
      walletService.Valid()
    }

    constructor (walletService: WalletService)
      requires walletService.Valid()
      ensures Valid() && this.walletService == walletService
    {
      this.walletService := walletService;
    }

    method Execute(amount: real) returns (r: Result<real>)
      requires Valid()
      modifies walletService.wallet
      ensures Valid()
      ensures Reply(r, walletService.wallet.balance) == DepositRound(old(walletService.wallet.balance), amount)
    {
      if amount <= 0.0 {
        return Err(InvalidArgument(DepositMessage));
      }
      // Past the command's own check the wallet accepts the deposit.
      var _ := walletService.Deposit(amount);
      var balance := walletService.GetBalance();
      r := Ok(balance);
    }
  }

  class WithdrawCommand {
    const walletService: WalletService

    ghost predicate Valid()
      reads this, walletService, walletService.wallet
    {
      walletService.Valid()
    }

    constructor (walletService: WalletService)
      requires walletService.Valid()
      ensures Valid() && this.walletService == walletService
    {
      this.walletService := walletService;
    }

    method Execute(amount: real) returns (r: Result<real>)
      requires Valid()
      modifies walletService.wallet
      ensures Valid()
      ensures Reply(r, walletService.wallet.balance) == WithdrawRound(old(walletService.wallet.balance), amount)
    {
      if amount <= 0.0 {
        return Err(InvalidArgument(WithdrawalMessage));
      }
      var o := walletService.Withdraw(amount);
      if o.Fail? {
        return Err(o.error);
      }
      var balance := walletService.GetBalance();
      r := Ok(balance);
    }
  }

  /** The exit request: a flag that starts false and that only `Execute`
      writes, always to true. */
  class ExitCommand {
    var shouldExit: bool

    constructor ()
      ensures !shouldExit
    {
      shouldExit := false;
    }

    /** Sets the flag; running it again keeps it set. */
    method Execute()
      modifies this
      ensures shouldExit
    {
      shouldExit := true;
    }
  }
}
