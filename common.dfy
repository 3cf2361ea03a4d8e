/** Failures raised by the wallet, the game service and the use-case commands.
    The first three constructors stand for the .NET exception types the source
    throws, with the message it passes to the exception; the last stands for a
    random source with no draw left. */
module Common {

  datatype Error =
    | InvalidArgument(message: string)      // System.ArgumentException
    | InvalidOperation(message: string)     // System.InvalidOperationException
    | ArgumentOutOfRange(message: string)   // System.ArgumentOutOfRangeException
    | DrawSourceExhausted                   // the random source has no draw left

  const DepositMessage: string := "Deposit amount must be positive."
  const WithdrawalMessage: string := "Withdrawal amount must be positive."
  const InsufficientFundsMessage: string := "Insufficient funds."
  const NegativeWinMessage: string := "Win amount must be non-negative."
  const NonPositiveBetMessage: string := "Bet amount must be positive."
  const BetRangeMessage: string := "Bet must be between $1 and $10."

  /** The value a call returns, or the exception it throws. */
  datatype Result<+T> = Ok(value: T) | Err(error: Error)

  /** Completion of a call that returns nothing (a C# `void` method). */
  datatype Outcome = Pass | Fail(error: Error)

  datatype Option<+T> = None | Some(value: T)
}
