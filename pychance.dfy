/**
 * The application's database as an object: the handlers read and assign
 * its wallet balances and append rows to its tables.
 */
module PyChance {
  import opened Wrappers
  import opened Records
  import opened Settlement
  import Text

  class Ledger {
    var accounts: seq<Account>
    var wallets: map<UserId, real>
    var transactions: seq<Transaction>
    var bets: seq<CoinflipBet>

    /** The stored state as a value. */
    ghost function State(): LedgerState
      reads this
    {
      LedgerState(accounts, wallets, transactions, bets)
    }

    ghost predicate Valid()
      reads this
    {
      Inv(State())
    }

    /** A freshly created database: no users, no wallets, no rows. */
    constructor ()
      ensures Valid() && State() == Empty
    {
      accounts, wallets, transactions, bets := [], map[], [], [];
      EmptyInv();
    }

    /** The `register` handler's effect on the database. */
    method Register(rawUsername: string, email: Option<string>) returns (r: Result<UserId, RegisterError>)
      modifies this
      ensures old(Valid()) ==> Valid()
      ensures r == Settlement.Register(old(State()), rawUsername, email).response
      ensures State() == Settlement.Register(old(State()), rawUsername, email).state
      ensures r.Failure? ==> State() == old(State())
    {
      ghost var before := State();
      ghost var step := Settlement.Register(before, rawUsername, email);
      if Valid() {
        RegisterPreservesInv(before, rawUsername, email);
      }
      var username := Text.Strip(rawUsername);
      if UsernameInUse(accounts, username) {
        return Failure(UsernameTaken);
      }
      if email.Some? && EmailInUse(accounts, email.value) {
        return Failure(EmailTaken);
      }
      var id := |accounts| + 1;
      accounts := accounts + [Account(id, username, email)];
      wallets := wallets[id := 0.0];
      r := Success(id);
      assert State() == Enrolled(before, username, email) == step.state;
    }

    /** The `coinflip` handler's effect on the database, with the coin's outcome given. */
    method PlaceBet(user: UserId, rawChoice: Option<string>, stake: real, outcome: Side)
      returns (r: Result<Receipt, BetError>)
      modifies this
      ensures old(Valid()) ==> Valid()
      ensures r == Coinflip(old(State()), user, rawChoice, stake, outcome).response
      ensures State() == Coinflip(old(State()), user, rawChoice, stake, outcome).state
      ensures r.Failure? ==> State() == old(State())
    {
      ghost var before := State();
      ghost var wasValid := Valid();
      var choice := NormalizeChoice(rawChoice);
      if stake <= 0.0 {
        return Failure(NonPositiveStake);
      }
      if user !in wallets {
        return Failure(NoWallet);
      }
      if wallets[user] < stake {
        return Failure(InsufficientFunds);
      }
      var payout := 0.0;
      var txType: TxType;
      if choice == SideName(outcome) {
        payout := stake * WinMultiplier;
        wallets := wallets[user := wallets[user] - stake + payout];
        txType := Win;
      } else {
        wallets := wallets[user := wallets[user] - stake];
        txType := Bet;
        assert wallets == before.wallets[user := before.wallets[user] - stake + payout];
      }
      var bet := CoinflipBet(user, choice, stake, outcome, payout);
      var tx := Transaction(user, if txType == Bet then stake else payout, txType, Metadata(choice, outcome));
      assert payout == Payout(choice, stake, outcome) && tx == TransactionFor(bet);
      transactions := transactions + [tx];
      bets := bets + [bet];
      r := Success(Receipt(outcome, payout, wallets[user]));
      assert State() == Settled(before, bet);
      if wasValid {
        SettledInv(before, bet);
      }
    }
  }

  /**
   * A client: a just-registered user's first bet is refused, whatever the
   * stake and the outcome, because the new wallet holds 0, and no row is written.
   */
  method NewUserCannotBet(ledger: Ledger, name: string, stake: real, outcome: Side)
    returns (reg: Result<UserId, RegisterError>, bet: Option<Result<Receipt, BetError>>)
    modifies ledger
    ensures reg.Success? ==> bet.Some? && bet.value.Failure?
    ensures reg.Failure? ==> bet == None
    ensures ledger.bets == old(ledger.bets) && ledger.transactions == old(ledger.transactions)
  {
    reg := ledger.Register(name, None);
    bet := None;
    if reg.Success? {
      var r := ledger.PlaceBet(reg.value, Some("heads"), stake, outcome);
      bet := Some(r);
    }
  }
}
