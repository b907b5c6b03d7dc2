/**
 * The record shapes the coin-flip game stores: users, the sides of the coin,
 * and the rows of the transaction and bet tables.
 */
module Records {
  import opened Wrappers

  /** A user's primary key; wallets and records refer to users by it. */
  type UserId = nat

  /** The two sides the coin can land on. */
  datatype Side = Heads | Tails

  /** The string stored for a side, and compared with the player's choice. */
  function SideName(s: Side): (name: string)
    ensures name == "heads" || name == "tails"
    ensures s == Heads <==> name == "heads"
  {
    match s
    case Heads => "heads"
    case Tails => "tails"
  }

  /** The `type` column of a transaction: `'win'` or `'bet'`. */
  datatype TxType = Win | Bet

  /** The metadata stored with a transaction: the choice and the outcome. */
  datatype Metadata = Metadata(choice: string, result: Side)

  /** A row of the `transactions` table (its id and timestamp are not modelled). */
  datatype Transaction = Transaction(userId: UserId, amount: real, txType: TxType, metadata: Metadata)

  /** A row of the `coinflip_bets` table (its id and timestamp are not modelled). */
  datatype CoinflipBet = CoinflipBet(userId: UserId, choice: string, stake: real, result: Side, payout: real)

  /** A row of the `users` table; the password hash is opaque and not modelled. */
  datatype Account = Account(id: UserId, username: string, email: Option<string>)
}
