# CasinoWallet, modelled in Dafny

CasinoWallet is a console betting game. A player keeps one wallet balance. They deposit into it and withdraw from it, and bet between $1 and $10 per round. A round draws a random number:
- below 0.5 the bet is lost;
- from 0.5 up to 0.9 the bet wins between 1 and 2 times its amount;
- from 0.9 up it wins between 2 and 10 times.

The win is rounded to cents. The bet is then debited and the win credited.

The model covers these parts of the program:

- **`money.dfy`** (`Money`): `Math.Round(x, 2)` with the .NET default of rounding half to even. `RoundHalfEven` is specified by the nearest-even property, and that integer is proved unique.
- **`wallet.dfy`** (`Wallets`): the `Wallet` entity as a class with a `balance` field.
  - Each method is proved against a pure effect function (`DepositEffect`, `WithdrawEffect`, `WinEffect`).
  - `Apply`/`Run` replay any sequence of operations, and the balance is proved never to go negative.
- **`wallet_service.dfy`** (`WalletServices`): `WalletService`, which owns a wallet.
  - `PlaceBet` is the debit followed by the credit, as two separate wallet calls (`PlaceBetEffect`).
  - The settlement is not atomic: a negative win is rejected after the bet has already been taken, and the model keeps that order.
- **`game.dfy`** (`Games`): `GameService.GenerateWin`.
  - The random provider is a `DrawSource` class holding a queue of draws, handed out front first, that fails once empty.
  - `Resolve(bet, draws)` is the specification: it gives the win and the draws left over.
  - Tier regions, multiplier ranges, the rounded win bounds (for draws in [0, 1), as the real generator yields) and the expected return are proved.
- **`use_cases.dfy`** (`UseCases`): the four commands.
  - `BetCommand`, `DepositCommand` and `WithdrawCommand` are classes over the services, proved against `BetRound`, `DepositRound` and `WithdrawRound`.
  - `ExitCommand` is a one-way flag.
- **`command_parser.dfy`** (`CommandParsing`): `CommandParser.Parse`.
  - It is built from a model of `Split(' ', RemoveEmptyEntries)` and of `string.IsNullOrWhiteSpace`.
  - `ToLower` and `decimal.TryParse` are passed in as functions.
- **`common.dfy`** (`Common`): the error kinds: one per .NET exception type thrown, each carrying the message passed to the exception, and one for a draw source with no draw left. It also holds the `Result`, `Outcome` and `Option` types.

An exception thrown by the source is an `Err`/`Fail` value here. The wallet balance and the pending draws after the call are always stated, so "nothing changed" and "the draws were consumed anyway" can both be expressed.

Two behaviours of the code are worth knowing.
- A bet above the balance is rejected only after the win has been resolved, so it still consumes draws (`BetRoundInsufficientFunds`).
- The parser's blank-input check looks at all white space but splits only on the space character. Tokens made of tabs can therefore be dropped or kept depending on what follows them (`ParseBlankTokens`).

## Model

| member | source | states |
|---|---|---|
| `Money.RoundHalfEven` | CasinoWallet/CasinoWallet/Application/Services/GameService.cs:40 | the result is within 0.5 of the input, and even when the input lies exactly halfway between two integers |
| `Money.RoundHalfEvenUnique` | CasinoWallet/CasinoWallet/Application/Services/GameService.cs:40 | any nearest-even integer equals `RoundHalfEven`, so the rounding rule is determined exactly |
| `Money.RoundHalfEvenMonotone` | CasinoWallet/CasinoWallet/Application/Services/GameService.cs:40 | rounding preserves order |
| `Money.Round2` | CasinoWallet/CasinoWallet/Application/Services/GameService.cs:40 | the result is a whole number of cents within half a cent of the input |
| `Money.Round2Monotone` | CasinoWallet/CasinoWallet/Application/Services/GameService.cs:40 | rounding to cents preserves order |
| `Money.Round2Between` | CasinoWallet/CasinoWallet/Application/Services/GameService.cs:40 | a non-negative amount between two others rounds between their roundings, all non-negative |
| `Money.Round2OfCents` | CasinoWallet/CasinoWallet/Application/Services/GameService.cs:40 | an amount that is already whole cents is unchanged |
| `Money.Round2NonNegative` | CasinoWallet/CasinoWallet/Application/Services/GameService.cs:46 | a non-negative amount rounds to a non-negative one |
| `Wallets.Apply` | CasinoWallet/CasinoWallet/Domain/Entities/Wallet.cs:18-63 | every wallet operation keeps a non-negative balance non-negative, and a rejected one leaves the balance unchanged |
| `Wallets.RunKeepsBalanceNonNegative` | CasinoWallet/CasinoWallet/Domain/Entities/Wallet.cs:18-63 | after any sequence of operations, accepted or rejected, the balance is still non-negative |
| `Wallets.RunAppend` | CasinoWallet/CasinoWallet/Domain/Entities/Wallet.cs:18-63 | running two operation sequences one after the other is running their concatenation |
| `Wallets.DepositThenWithdraw` | CasinoWallet/CasinoWallet/Domain/Entities/Wallet.cs:18-41 | a positive deposit is accepted and withdrawing the same amount restores the balance |
| `Wallets.WithdrawThenDeposit` | CasinoWallet/CasinoWallet/Domain/Entities/Wallet.cs:18-41 | an accepted withdrawal is undone by depositing the same amount |
| `Wallets.WithdrawAccepts` | CasinoWallet/CasinoWallet/Domain/Entities/Wallet.cs:32-41 | a withdrawal is accepted if and only if 0 < amount <= balance, and taking the whole balance leaves 0 |
| `Wallets.DepositWithdrawScenario` | CasinoWallet/CasinoWallet.Tests/Domain/Entities/WalletTests.cs:33-41 | deposit 100 then withdraw 40 on a new wallet leaves 60 |
| `Wallets.Wallet.constructor` | CasinoWallet/CasinoWallet/Domain/Entities/Wallet.cs:11 | a new wallet has balance 0 |
| `Wallets.Wallet.Deposit` | CasinoWallet/CasinoWallet/Domain/Entities/Wallet.cs:18-24 | a non-positive amount fails with the deposit message and leaves the balance, otherwise the balance grows by the amount |
| `Wallets.Wallet.Withdraw` | CasinoWallet/CasinoWallet/Domain/Entities/Wallet.cs:32-41 | a non-positive amount fails with the withdrawal message, an amount above the balance fails with insufficient funds, both before any change; otherwise the balance drops by the amount |
| `Wallets.Wallet.ApplyBet` | CasinoWallet/CasinoWallet/Domain/Entities/Wallet.cs:47-50 | behaves exactly as `Withdraw` |
| `Wallets.Wallet.ApplyWin` | CasinoWallet/CasinoWallet/Domain/Entities/Wallet.cs:57-63 | a negative win fails and leaves the balance, a zero or positive win is added |
| `WalletServices.PlaceBetEffect` | CasinoWallet/CasinoWallet/Application/Services/WalletService.cs:48-54 | settling a bet never makes a non-negative balance negative |
| `WalletServices.PlaceBetSettles` | CasinoWallet/CasinoWallet/Application/Services/WalletService.cs:48-54 | for 0 < bet <= balance and win >= 0 the bet settles to balance - bet + win |
| `WalletServices.PlaceBetRejectsBet` | CasinoWallet/CasinoWallet/Application/Services/WalletService.cs:51 | a non-positive bet fails with the withdrawal message and a bet above the balance with insufficient funds, the balance unchanged |
| `WalletServices.PlaceBetNegativeWinKeepsDebit` | CasinoWallet/CasinoWallet/Application/Services/WalletService.cs:51-52 | a valid bet with a negative win fails with the negative-win message after the bet has been debited |
| `WalletServices.PlaceBetIsBetThenWin` | CasinoWallet/CasinoWallet/Application/Services/WalletService.cs:51-52 | an accepted bet settles as the two wallet operations run in order |
| `WalletServices.LedgerScenarios` | CasinoWallet/CasinoWallet.Tests/Domain/Entities/WalletTests.cs:51-130 | the ledger examples: 100, -30, bet 20 win 40 gives 90; 100, bet 20 win 50 gives 130; 100, bet 10 win 0 gives 90 |
| `WalletServices.WalletService.constructor` | CasinoWallet/CasinoWallet/Application/Services/WalletService.cs:12 | the service owns a new wallet with balance 0 |
| `WalletServices.WalletService.GetBalance` | CasinoWallet/CasinoWallet/Application/Services/WalletService.cs:18-23 | returns the wallet balance, which is non-negative, and changes nothing |
| `WalletServices.WalletService.Deposit` | CasinoWallet/CasinoWallet/Application/Services/WalletService.cs:28-33 | has exactly the wallet deposit's outcome and effect |
| `WalletServices.WalletService.Withdraw` | CasinoWallet/CasinoWallet/Application/Services/WalletService.cs:38-43 | has exactly the wallet withdrawal's outcome and effect |
| `WalletServices.WalletService.PlaceBet` | CasinoWallet/CasinoWallet/Application/Services/WalletService.cs:48-54 | debits then credits, with the outcome and balance of `PlaceBetEffect` |
| `Games.TierRegions` | CasinoWallet/CasinoWallet/Application/Services/GameService.cs:13-16 | a draw in [0, 1) selects a tier if and only if it lies in that tier's region; the regions [0, 0.5), [0.5, 0.9) and [0.9, 1) are adjacent and cover [0, 1), so both thresholds go to the upper tier, and their widths are 0.5, 0.4 and 0.1 |
| `Games.MultiplierRange` | CasinoWallet/CasinoWallet/Application/Services/GameService.cs:19-23 | the small-win multiplier is 1 + r2 in [1, 2) and the big-win one 2 + 8 r2 in [2, 10) |
| `Games.UnroundedWinRange` | CasinoWallet/CasinoWallet/Application/Services/GameService.cs:39-45 | before rounding a small win lies in [bet, 2 bet) and a big win in [2 bet, 10 bet) |
| `Games.WinBetween` | CasinoWallet/CasinoWallet/Application/Services/GameService.cs:40 | a multiplier between lo and hi gives a rounded win between the rounded lo and hi multiples of the bet, never negative |
| `Games.MultiplierSymmetric` | CasinoWallet/CasinoWallet/Application/Services/GameService.cs:39-45 | second draws r and 1 - r give multipliers averaging the multiplier of 0.5, so that is a winning tier's mean multiplier under a uniform draw |
| `Games.MultiplierInverse` | CasinoWallet/CasinoWallet/Application/Services/GameService.cs:39-45 | every multiplier m in a tier's range comes from exactly one second draw, (m - min) / (max - min), and that draw lies in [0, 1): no other draw gives m |
| `Games.ExpectedMultiplier` | CasinoWallet/CasinoWallet.Tests/Application/Services/GameServiceTests.cs:99-109 | the tier probabilities, the widths of the regions of `TierRegions`, sum to 1; the mean multipliers at a second draw of 0.5 are 1.5 and 6; weighting them gives a return to player of 1.2 |
| `Games.Resolve` | CasinoWallet/CasinoWallet/Application/Services/GameService.cs:25-49 | a non-positive bet fails before any draw; it fails exactly when the bet is non-positive or the draws run out, and running out consumes everything; a win consumes a proper prefix of the draws |
| `Games.ResolveLoss` | CasinoWallet/CasinoWallet/Application/Services/GameService.cs:30-35 | a first draw below 0.5 wins 0 and uses one draw |
| `Games.ResolveSmallWin` | CasinoWallet/CasinoWallet/Application/Services/GameService.cs:36-41 | a first draw in [0.5, 0.9) wins the rounded bet times the small multiplier of the second draw, using two draws |
| `Games.ResolveBigWin` | CasinoWallet/CasinoWallet/Application/Services/GameService.cs:42-47 | a first draw of 0.9 or more wins the rounded bet times the big multiplier of the second draw, using two draws |
| `Games.SmallWinRange` | CasinoWallet/CasinoWallet/Application/Services/GameService.cs:37-41 | a rounded small win lies between round2(bet) and round2(2 bet) |
| `Games.BigWinRange` | CasinoWallet/CasinoWallet/Application/Services/GameService.cs:43-47 | a rounded big win lies between round2(2 bet) and round2(10 bet) |
| `Games.ResolveWinBounds` | CasinoWallet/CasinoWallet/Application/Services/GameService.cs:32-47 | with draws in [0, 1) a win is 0 on a loss, within its tier's rounded bounds otherwise, and never negative |
| `Games.ResolveExamples` | CasinoWallet/CasinoWallet.Tests/Application/Services/GameServiceDeterministicTests.cs:12-52 | with bet 10: draw 0.3 wins 0, draws (0.6, 0.5) win 15, draws (0.95, 0.5) win 60, and the second draw 1.0 of GameServiceTests.cs:122, outside [0, 1), gives draws (0.6, 1.0) a win of 20 |
| `Games.DrawSource.constructor` | CasinoWallet/CasinoWallet.Tests/Infrastructure/Services/Random/FakeRandomProvider.cs:5-7 | the source starts with the given draws pending, whatever their values |
| `Games.DrawSource.NextDouble` | CasinoWallet/CasinoWallet.Tests/Infrastructure/Services/Random/FakeRandomProvider.cs:9-15 | an empty source fails; otherwise it returns the first pending draw and removes it |
| `Games.GameService.constructor` | CasinoWallet/CasinoWallet/Application/Services/GameService.cs:9-11 | the service keeps the draw source it is given |
| `Games.GameService.GenerateWin` | CasinoWallet/CasinoWallet/Application/Services/GameService.cs:25-49 | returns the win of `Resolve` and leaves the source holding the draws `Resolve` leaves |
| `UseCases.BetRound` | CasinoWallet/CasinoWallet/Application/UseCases/BetCommand.cs:17-27 | a bet round never makes a non-negative balance negative |
| `UseCases.BetRangeChecked` | CasinoWallet/CasinoWallet/Application/UseCases/BetCommand.cs:19-20 | the round fails out of range if and only if bet < 1 or bet > 10, and then no draw is taken and the balance is unchanged |
| `UseCases.BetRoundExhausted` | CasinoWallet/CasinoWallet/Application/UseCases/BetCommand.cs:22-23 | when the win cannot be resolved the failure propagates and the balance is unchanged |
| `UseCases.BetRoundInsufficientFunds` | CasinoWallet/CasinoWallet/Application/UseCases/BetCommand.cs:22-23 | a bet above the balance fails with insufficient funds, balance unchanged, after its draws were consumed |
| `UseCases.BetRoundSettles` | CasinoWallet/CasinoWallet/Application/UseCases/BetCommand.cs:22-26 | with draws in [0, 1) and a bet within the balance the round returns (bet, win, balance - bet + win), with win >= 0 and the new balance >= balance - bet >= 0 |
| `UseCases.BetRoundAllOrNothing` | CasinoWallet/CasinoWallet/Application/UseCases/BetCommand.cs:22-26 | with draws in [0, 1) a failed round leaves the balance unchanged, and a successful one reports the bet and the balance the wallet is left with |
| `UseCases.BetRoundExamples` | CasinoWallet/CasinoWallet/Application/UseCases/BetCommand.cs:17-27 | from 100 with bet 10: draw 0.3 leaves 90; draws (0.6, 0.5) win 15 and leave 105 |
| `UseCases.DepositRoundReplies` | CasinoWallet/CasinoWallet/Application/UseCases/DepositCommand.cs:16-23 | the command succeeds if and only if amount > 0, returning balance + amount; otherwise it fails with the deposit message and changes nothing; it agrees with the wallet's own deposit |
| `UseCases.WithdrawRoundReplies` | CasinoWallet/CasinoWallet/Application/UseCases/WithdrawCommand.cs:17-24 | the command succeeds if and only if 0 < amount <= balance, returning balance - amount (0 for the whole balance); otherwise it fails with the wallet's message and changes nothing |
| `UseCases.DepositThenWithdrawRound` | CasinoWallet/CasinoWallet/Application/UseCases/DepositCommand.cs:16-23 | a deposit command followed by a withdrawal command of the same amount returns the original balance (the withdrawal is WithdrawCommand.cs:17-24) |
| `UseCases.BetCommand.constructor` | CasinoWallet/CasinoWallet/Application/UseCases/BetCommand.cs:9 | the command keeps the two services it is given |
| `UseCases.BetCommand.Execute` | CasinoWallet/CasinoWallet/Application/UseCases/BetCommand.cs:17-27 | its result, the new balance and the draws left are exactly those of `BetRound` |
| `UseCases.DepositCommand.constructor` | CasinoWallet/CasinoWallet/Application/UseCases/DepositCommand.cs:8 | the command keeps the service it is given |
| `UseCases.DepositCommand.Execute` | CasinoWallet/CasinoWallet/Application/UseCases/DepositCommand.cs:16-23 | its result and the new balance are exactly those of `DepositRound` |
| `UseCases.WithdrawCommand.constructor` | CasinoWallet/CasinoWallet/Application/UseCases/WithdrawCommand.cs:8 | the command keeps the service it is given |
| `UseCases.WithdrawCommand.Execute` | CasinoWallet/CasinoWallet/Application/UseCases/WithdrawCommand.cs:17-24 | its result and the new balance are exactly those of `WithdrawRound` |
| `UseCases.ExitCommand.constructor` | CasinoWallet/CasinoWallet/Application/UseCases/ExitCommand.cs:11 | the flag starts false |
| `UseCases.ExitCommand.Execute` | CasinoWallet/CasinoWallet/Application/UseCases/ExitCommand.cs:16-19 | the flag is true afterwards, whatever it was before |
| `CommandParsing.TokenLength` | CasinoWallet/CasinoWallet/UI/CommandParser.cs:23 | the first token ends at the first space or at the end of the text |
| `CommandParsing.Split` | CasinoWallet/CasinoWallet/UI/CommandParser.cs:23 | every piece is non-empty and contains no space |
| `CommandParsing.TokenLengthAppend` | CasinoWallet/CasinoWallet/UI/CommandParser.cs:23 | text after a space does not change the first token |
| `CommandParsing.SplitAroundSpace` | CasinoWallet/CasinoWallet/UI/CommandParser.cs:23 | splitting a + " " + b gives the pieces of a followed by those of b |
| `CommandParsing.TokenLengthNoSpace` | CasinoWallet/CasinoWallet/UI/CommandParser.cs:23 | text without a space is a single token |
| `CommandParsing.SplitSingle` | CasinoWallet/CasinoWallet/UI/CommandParser.cs:23 | a token splits into itself |
| `CommandParsing.SplitToken` | CasinoWallet/CasinoWallet/UI/CommandParser.cs:23 | a token followed by a space splits off as the first piece |
| `CommandParsing.SplitJoin` | CasinoWallet/CasinoWallet/UI/CommandParser.cs:23 | splitting tokens joined by single spaces gives back the tokens |
| `CommandParsing.SplitNormalizes` | CasinoWallet/CasinoWallet/UI/CommandParser.cs:23 | any input splits exactly as its single-spaced form |
| `CommandParsing.SplitNonEmpty` | CasinoWallet/CasinoWallet/UI/CommandParser.cs:23-24 | text with a character other than a space has at least one token |
| `CommandParsing.SplitNonBlank` | CasinoWallet/CasinoWallet/UI/CommandParser.cs:19-24 | text that is not blank has at least one token, so the first token always exists |
| `CommandParsing.BlankConcat` | CasinoWallet/CasinoWallet/UI/CommandParser.cs:19 | a concatenation is blank if and only if both parts are |
| `CommandParsing.ParseTokens` | CasinoWallet/CasinoWallet/UI/CommandParser.cs:16-35 | `Parse`: blank input gives ("", none); otherwise the command is the lowercased first token, the amount is the parse of the second token if there is one, and none otherwise |
| `CommandParsing.ParseIgnoresExtraSpaces` | CasinoWallet/CasinoWallet/UI/CommandParser.cs:23 | an extra space between, before or after the words does not change the parse |
| `CommandParsing.ParseIgnoresLaterTokens` | CasinoWallet/CasinoWallet/UI/CommandParser.cs:29 | once a non-blank input has two tokens, anything appended after a space is ignored |
| `CommandParsing.ParseCommandAmount` | CasinoWallet/CasinoWallet/UI/CommandParser.cs:23-34 | "word amount" parses to the lowercased word and the parsed amount, and "word" alone to the lowercased word and none |
| `CommandParsing.ParseBlankTokens` | CasinoWallet/CasinoWallet/UI/CommandParser.cs:19-24 | two tokens of non-space white space parse as blank, but followed by a word they parse to the first of them |
| `CommandParsing.TabIsBlankToken` | CasinoWallet/CasinoWallet/UI/CommandParser.cs:19-23 | a tab is a token of the split and is blank, so the inputs of `ParseBlankTokens` exist |

## Left out

- Floating point and `decimal`: money, draws and multipliers are exact reals. Double arithmetic, the inexact binary value of 0.9, the `(decimal)double` conversion, and decimal precision and overflow are not modelled. Rounding to cents is modelled exactly.
- The random number generator (`RandomProvider.cs`) is not part of this model. The draw source is a finite queue of arbitrary draws, as in the test double. That the real generator yields draws in [0, 1) is a precondition of the win-bound lemmas only (`AllUnit`). When the queue is empty the source fails with its own error kind. The test double throws `InvalidOperationException` there, and the real generator never runs out.
- Logging in `WalletService` is left out: it has no effect on the balance.
- The null-argument checks of the `GameService` constructor (`GameService.cs:11`) and of the `WalletService` logger (`WalletService.cs:13`) are left out, because a Dafny reference is never null. The command classes do not check their arguments. A null input to `Parse` takes the same branch as the empty string and is modelled by it.
- The text .NET appends to an `ArgumentException` message (for example " (Parameter 'amount')" after the withdrawal message) is not modelled; an error carries only the message the source passes.
- `string.ToLower` and `decimal.TryParse` are culture-dependent library calls. They are parameters of `Parse`, so nothing is assumed about them.
- Call counting from the tests ("PlaceBet is called once", "GetBalance is never called after a failed withdrawal") is not stated as such. The command methods make each call at most once, and the result is read back only after the operation succeeded.
- `ExitCommand.Execute`: the setter is private, so only `Execute` writes the flag and it can never go back to false. The model states only that each `Execute` leaves it true; the class field is public in Dafny.
- The console loop (`GameLoop.cs`), the host setup (`Program.cs`) and the interfaces are not part of this model. The statistical frequency test is left out too; only the exact tier widths and the expected multiplier derived from them are proved.
