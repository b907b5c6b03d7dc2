/**
 * The ledger of the coin-flip game as a value, and the two operations that
 * change it: settling a bet (the `coinflip` handler) and registering a user
 * (the `register` handler). The class in module PyChance performs these
 * steps in place; the functions here are their specification.
 */
module Settlement {
  import opened Wrappers
  import opened Records
  import Text

  /** A winning bet is paid 1.9 times its stake; the stake itself is lost. */
  const WinMultiplier: real := 1.9

  /** The stored state: users, wallet balances by user, and the two append-only logs. */
  datatype LedgerState = LedgerState(
    accounts: seq<Account>,
    wallets: map<UserId, real>,
    transactions: seq<Transaction>,
    bets: seq<CoinflipBet>)

  /** The empty database. */
  const Empty: LedgerState := LedgerState([], map[], [], [])

  datatype BetError = NonPositiveStake | NoWallet | InsufficientFunds

  /** What a settled bet reports back: the outcome, the payout and the new balance. */
  datatype Receipt = Receipt(result: Side, payout: real, balance: real)

  datatype BetStep = BetStep(state: LedgerState, response: Result<Receipt, BetError>)

  datatype RegisterError = UsernameTaken | EmailTaken

  datatype RegisterStep = RegisterStep(state: LedgerState, response: Result<UserId, RegisterError>)

  // ---------- Settlement of one bet ----------

  /** The choice as compared: a missing or empty choice is "", then lower-cased. */
  function NormalizeChoice(raw: Option<string>): string {
    Text.Lower(if raw.Some? then raw.value else "")
  }

  /** A bet wins exactly when the normalized choice names the outcome. */
  predicate Wins(choice: string, outcome: Side) {
    choice == SideName(outcome)
  }

  /** The amount credited for a bet. */
  function Payout(choice: string, stake: real, outcome: Side): real {
    if Wins(choice, outcome) then stake * WinMultiplier else 0.0
  }

  /** The transaction row written alongside a bet row. */
  function TransactionFor(b: CoinflipBet): Transaction {
    var kind := if Wins(b.choice, b.result) then Win else Bet;
    Transaction(b.userId, if kind == Bet then b.stake else b.payout, kind, Metadata(b.choice, b.result))
  }

  /** The state after a settled bet: the balance moves by its net effect and both rows are appended. */
  function Settled(st: LedgerState, bet: CoinflipBet): LedgerState
    requires bet.userId in st.wallets
  {
    st.(wallets := st.wallets[bet.userId := st.wallets[bet.userId] - bet.stake + bet.payout],
        transactions := st.transactions + [TransactionFor(bet)],
        bets := st.bets + [bet])
  }

  /**
   * One request to the coin-flip endpoint: `user` is the logged-in user,
   * `rawChoice` the submitted choice, `stake` the parsed stake and `outcome`
   * the side the coin landed on.
   */
  function Coinflip(st: LedgerState, user: UserId, rawChoice: Option<string>, stake: real, outcome: Side): (r: BetStep)
    // the three rejections, in the order they are checked, and nothing else is rejected
    ensures r.response == Failure(NonPositiveStake) <==> stake <= 0.0
    ensures r.response == Failure(NoWallet) <==> 0.0 < stake && user !in st.wallets
    ensures r.response == Failure(InsufficientFunds) <==> 0.0 < stake && user in st.wallets && st.wallets[user] < stake
    ensures r.response.Success? <==> 0.0 < stake && user in st.wallets && stake <= st.wallets[user]
    // a rejected bet leaves no trace
    ensures r.response.Failure? ==> r.state == st
    // a settled bet
    ensures r.response.Success? ==> user in r.state.wallets
    ensures r.response.Success? ==>
      var choice := NormalizeChoice(rawChoice);
      var receipt := r.response.value;
      var balance := r.state.wallets[user];
      && receipt.result == outcome
      && receipt.balance == balance
      // win: paid 1.9 times the stake, so the balance grows by 0.9 times the stake
      && (Wins(choice, outcome) ==> receipt.payout == stake * 1.9 && balance == st.wallets[user] + stake * 0.9)
      // loss: nothing paid, the stake is gone
      && (!Wins(choice, outcome) ==> receipt.payout == 0.0 && balance == st.wallets[user] - stake)
      // the stake was affordable, so the balance cannot go below zero
      && 0.0 <= balance
      // no other wallet and no user changes
      && r.state.accounts == st.accounts
      && r.state.wallets.Keys == st.wallets.Keys
      && (forall u :: u in st.wallets && u != user ==> r.state.wallets[u] == st.wallets[u])
      // exactly one bet row and exactly one transaction row are appended
      && r.state.bets == st.bets + [CoinflipBet(user, choice, stake, outcome, receipt.payout)]
      && |r.state.transactions| == |st.transactions| + 1
      && r.state.transactions[..|st.transactions|] == st.transactions
      && var tx := r.state.transactions[|st.transactions|];
         && tx.userId == user && tx.metadata == Metadata(choice, outcome)
         && (Wins(choice, outcome) ==> tx.txType == Win && tx.amount == receipt.payout)
         && (!Wins(choice, outcome) ==> tx.txType == Bet && tx.amount == stake)
  {
    var choice := NormalizeChoice(rawChoice);
    if stake <= 0.0 then BetStep(st, Failure(NonPositiveStake))
    else if user !in st.wallets then BetStep(st, Failure(NoWallet))
    else if st.wallets[user] < stake then BetStep(st, Failure(InsufficientFunds))
    else
      var bet := CoinflipBet(user, choice, stake, outcome, Payout(choice, stake, outcome));
      BetStep(Settled(st, bet), Success(Receipt(outcome, bet.payout, st.wallets[user] - stake + bet.payout)))
  }

  /** A choice that names neither side loses whatever the coin shows. */
  lemma OtherChoicesLose(rawChoice: Option<string>, stake: real, outcome: Side)
    requires NormalizeChoice(rawChoice) != "heads" && NormalizeChoice(rawChoice) != "tails"
    ensures !Wins(NormalizeChoice(rawChoice), outcome)
    ensures Payout(NormalizeChoice(rawChoice), stake, outcome) == 0.0
  {
  }

  // ---------- Registration ----------

  predicate UsernameInUse(accounts: seq<Account>, name: string) {
    exists i :: 0 <= i < |accounts| && accounts[i].username == name
  }

  predicate EmailInUse(accounts: seq<Account>, email: string) {
    exists i :: 0 <= i < |accounts| && accounts[i].email == Some(email)
  }

  /** The state after a registration: one more account and its empty wallet. */
  function Enrolled(st: LedgerState, name: string, email: Option<string>): LedgerState {
    var id := |st.accounts| + 1;
    st.(accounts := st.accounts + [Account(id, name, email)], wallets := st.wallets[id := 0.0])
  }

  /**
   * One registration request. The username is stripped; a username already
   * in use is refused; an e-mail address already in use violates the unique
   * column and the insert fails. Otherwise the user gets the next id and a
   * wallet with balance 0.
   */
  function Register(st: LedgerState, rawUsername: string, email: Option<string>): (r: RegisterStep)
    ensures var name := Text.Strip(rawUsername);
      && (r.response == Failure(UsernameTaken) <==> exists a :: a in st.accounts && a.username == name)
      && (r.response == Failure(EmailTaken) <==>
            (forall a :: a in st.accounts ==> a.username != name)
            && email.Some? && exists a :: a in st.accounts && a.email == email)
    ensures r.response.Failure? ==> r.state == st
    ensures r.response.Success? ==>
      var id := r.response.value;
      && id == |st.accounts| + 1
      && r.state.accounts == st.accounts + [Account(id, Text.Strip(rawUsername), email)]
      && r.state.wallets == st.wallets[id := 0.0]
      && r.state.transactions == st.transactions
      && r.state.bets == st.bets
  {
    var name := Text.Strip(rawUsername);
    if UsernameInUse(st.accounts, name) then RegisterStep(st, Failure(UsernameTaken))
    else if email.Some? && EmailInUse(st.accounts, email.value) then RegisterStep(st, Failure(EmailTaken))
    else RegisterStep(Enrolled(st, name, email), Success(|st.accounts| + 1))
  }

  // ---------- The ledger invariant ----------

  /** The net effect on `u`'s balance of the bets in `bets`: payouts minus stakes. */
  function NetWinnings(bets: seq<CoinflipBet>, u: UserId): real {
    if bets == [] then 0.0
    else
      var b := bets[|bets| - 1];
      NetWinnings(bets[..|bets| - 1], u) + (if b.userId == u then b.payout - b.stake else 0.0)
  }

  /** A bet row as settlement writes it: a positive stake and the payout the rule gives. */
  predicate WellFormedBet(b: CoinflipBet) {
    0.0 < b.stake && b.payout == Payout(b.choice, b.stake, b.result)
  }

  /**
   * The structural invariant of the database: ids are 1, 2, ... in order;
   * usernames and (present) e-mails are unique; each user has exactly one
   * wallet and there are no other wallets; no balance is negative; and the
   * transaction log and the bet log pair up row by row, each bet row as
   * settlement writes it and for a user who has a wallet. It says nothing
   * about how the balances were funded.
   */
  ghost predicate Inv(st: LedgerState) {
    && (forall i :: 0 <= i < |st.accounts| ==> st.accounts[i].id == i + 1)
    && (forall i, j :: 0 <= i < j < |st.accounts| ==> st.accounts[i].username != st.accounts[j].username)
    && (forall i, j :: 0 <= i < j < |st.accounts| && st.accounts[i].email.Some? ==>
          st.accounts[i].email != st.accounts[j].email)
    && (forall u :: u in st.wallets <==> 1 <= u <= |st.accounts|)
    && (forall u :: u in st.wallets ==> 0.0 <= st.wallets[u])
    && |st.transactions| == |st.bets|
    && (forall i :: 0 <= i < |st.bets| ==>
          WellFormedBet(st.bets[i]) && st.bets[i].userId in st.wallets
          && st.transactions[i] == TransactionFor(st.bets[i]))
  }

  lemma EmptyInv()
    ensures Inv(Empty)
  {
  }

  /** Appending one bet adds its net effect to its own user only. */
  lemma NetWinningsSnoc(bets: seq<CoinflipBet>, b: CoinflipBet, u: UserId)
    ensures NetWinnings(bets + [b], u) == NetWinnings(bets, u) + (if b.userId == u then b.payout - b.stake else 0.0)
  {
    assert (bets + [b])[..|bets|] == bets;
  }

  /** Net winnings add up over concatenated logs. */
  lemma {:induction false} NetWinningsConcat(a: seq<CoinflipBet>, b: seq<CoinflipBet>, u: UserId)
    ensures NetWinnings(a + b, u) == NetWinnings(a, u) + NetWinnings(b, u)
    decreases |b|
  {
    if b == [] {
      assert a + b == a;
    } else {
      var last := b[|b| - 1];
      var init := b[..|b| - 1];
      assert a + b == (a + init) + [last];
      assert b == init + [last];
      NetWinningsSnoc(a + init, last, u);
      NetWinningsSnoc(init, last, u);
      NetWinningsConcat(a, init, u);
    }
  }

  /** A user none of whose bets is in the log has net winnings 0. */
  lemma {:induction false} NetWinningsAbsent(bets: seq<CoinflipBet>, u: UserId)
    requires forall i :: 0 <= i < |bets| ==> bets[i].userId != u
    ensures NetWinnings(bets, u) == 0.0
    decreases |bets|
  {
    if bets != [] {
      NetWinningsAbsent(bets[..|bets| - 1], u);
    }
  }

  /** Appending an affordable, well-formed bet of an existing user keeps the invariant. */
  lemma SettledInv(st: LedgerState, bet: CoinflipBet)
    requires Inv(st)
    requires bet.userId in st.wallets && bet.stake <= st.wallets[bet.userId]
    requires WellFormedBet(bet)
    ensures Inv(Settled(st, bet))
  {
  }

  /** Settling a bet keeps the invariant. */
  lemma CoinflipPreservesInv(st: LedgerState, user: UserId, rawChoice: Option<string>, stake: real, outcome: Side)
    requires Inv(st)
    ensures Inv(Coinflip(st, user, rawChoice, stake, outcome).state)
  {
    var r := Coinflip(st, user, rawChoice, stake, outcome);
    if r.response.Success? {
      var choice := NormalizeChoice(rawChoice);
      SettledInv(st, CoinflipBet(user, choice, stake, outcome, Payout(choice, stake, outcome)));
    }
  }

  /** Adding an account with an unused name and an unused e-mail keeps the invariant. */
  lemma EnrolledInv(st: LedgerState, name: string, email: Option<string>)
    requires Inv(st)
    requires forall i :: 0 <= i < |st.accounts| ==> st.accounts[i].username != name
    requires email.Some? ==> forall i :: 0 <= i < |st.accounts| ==> st.accounts[i].email != email
    ensures Inv(Enrolled(st, name, email))
    ensures |st.accounts| + 1 !in st.wallets
  {
  }

  /** Registering a user keeps the invariant; the new id had no wallet before. */
  lemma RegisterPreservesInv(st: LedgerState, rawUsername: string, email: Option<string>)
    requires Inv(st)
    ensures Inv(Register(st, rawUsername, email).state)
    ensures var r := Register(st, rawUsername, email);
      r.response.Success? ==> r.response.value !in st.wallets && |r.state.wallets| == |st.wallets| + 1
  {
    var r := Register(st, rawUsername, email);
    if r.response.Success? {
      var name := Text.Strip(rawUsername);
      assert !UsernameInUse(st.accounts, name);
      assert email.Some? ==> !EmailInUse(st.accounts, email.value);
      EnrolledInv(st, name, email);
    }
  }

  // ---------- Reconciling the transaction log ----------

  /**
   * The balance change a transaction row stands for. A `'bet'` row records
   * the lost stake; a `'win'` row records the gross payout, 1.9 times the
   * stake, of which 0.9 / 1.9 is the net gain.
   */
  function TxDelta(t: Transaction): real {
    if t.txType == Win then t.amount * 9.0 / 19.0 else -t.amount
  }

  /** The sum of `TxDelta` over `u`'s rows of a transaction log. */
  function TxNet(txs: seq<Transaction>, u: UserId): real {
    if txs == [] then 0.0
    else
      var t := txs[|txs| - 1];
      TxNet(txs[..|txs| - 1], u) + (if t.userId == u then TxDelta(t) else 0.0)
  }

  /** The transaction row of a well-formed bet stands for exactly the bet's net effect. */
  lemma TxDeltaOfBet(b: CoinflipBet)
    requires WellFormedBet(b)
    ensures TransactionFor(b).userId == b.userId
    ensures TxDelta(TransactionFor(b)) == b.payout - b.stake
  {
  }

  /** Paired logs give the same sums. */
  lemma {:induction false} TxNetOfBets(txs: seq<Transaction>, bets: seq<CoinflipBet>, u: UserId)
    requires |txs| == |bets|
    requires forall i :: 0 <= i < |bets| ==> WellFormedBet(bets[i]) && txs[i] == TransactionFor(bets[i])
    ensures TxNet(txs, u) == NetWinnings(bets, u)
    decreases |bets|
  {
    if bets != [] {
      var n := |bets| - 1;
      TxNetOfBets(txs[..n], bets[..n], u);
      TxDeltaOfBet(bets[n]);
    }
  }

  /** In every valid state the transaction log and the bet log agree on every user's net gain. */
  lemma TransactionsReconcile(st: LedgerState, u: UserId)
    requires Inv(st)
    ensures TxNet(st.transactions, u) == NetWinnings(st.bets, u)
  {
    TxNetOfBets(st.transactions, st.bets, u);
  }
}
