/**
 * Sequences of requests against the ledger: the balance never goes
 * negative, the logs only grow, and every balance moves by exactly the
 * payouts minus the stakes of the bets settled on it.
 */
module History {
  import opened Wrappers
  import opened Records
  import opened Settlement

  /** A request the application serves, with the coin's outcome supplied. */
  datatype Request =
    | PlaceBet(user: UserId, rawChoice: Option<string>, stake: real, outcome: Side)
    | SignUp(rawUsername: string, email: Option<string>)

  function Step(st: LedgerState, req: Request): LedgerState {
    match req
    case PlaceBet(user, rawChoice, stake, outcome) => Coinflip(st, user, rawChoice, stake, outcome).state
    case SignUp(rawUsername, email) => Register(st, rawUsername, email).state
  }

  /** The state after serving `reqs` one after another. */
  function Run(st: LedgerState, reqs: seq<Request>): LedgerState
    decreases |reqs|
  {
    if reqs == [] then st else Run(Step(st, reqs[0]), reqs[1..])
  }

  /** One request from a valid state leads to a valid state. */
  lemma StepPreservesInv(st: LedgerState, req: Request)
    requires Inv(st)
    ensures Inv(Step(st, req))
  {
    match req {
      case PlaceBet(user, rawChoice, stake, outcome) => CoinflipPreservesInv(st, user, rawChoice, stake, outcome);
      case SignUp(rawUsername, email) => RegisterPreservesInv(st, rawUsername, email);
    }
  }

  /** Every state reached from a valid one by any requests is valid. */
  lemma {:induction false} RunPreservesInv(st: LedgerState, reqs: seq<Request>)
    requires Inv(st)
    ensures Inv(Run(st, reqs))
    decreases |reqs|
  {
    if reqs != [] {
      StepPreservesInv(st, reqs[0]);
      RunPreservesInv(Step(st, reqs[0]), reqs[1..]);
    }
  }

  /** From any valid database, funded or not, no sequence of requests makes a balance negative. */
  lemma BalanceNeverNegative(st: LedgerState, reqs: seq<Request>, u: UserId)
    requires Inv(st)
    requires u in Run(st, reqs).wallets
    ensures 0.0 <= Run(st, reqs).wallets[u]
  {
    RunPreservesInv(st, reqs);
  }

  /** One request only appends to the users and to both logs, and removes no wallet. */
  lemma StepAppendsOnly(st: LedgerState, req: Request)
    ensures var next := Step(st, req);
      && |st.accounts| <= |next.accounts| && next.accounts[..|st.accounts|] == st.accounts
      && |st.bets| <= |next.bets| && next.bets[..|st.bets|] == st.bets
      && |st.transactions| <= |next.transactions| && next.transactions[..|st.transactions|] == st.transactions
      && st.wallets.Keys <= next.wallets.Keys
  {
  }

  /** Users, wallets and both logs only grow: nothing is deleted or rewritten. */
  lemma {:induction false} RunAppendsOnly(st: LedgerState, reqs: seq<Request>)
    ensures |st.accounts| <= |Run(st, reqs).accounts| && Run(st, reqs).accounts[..|st.accounts|] == st.accounts
    ensures |st.bets| <= |Run(st, reqs).bets| && Run(st, reqs).bets[..|st.bets|] == st.bets
    ensures |st.transactions| <= |Run(st, reqs).transactions|
    ensures Run(st, reqs).transactions[..|st.transactions|] == st.transactions
    ensures st.wallets.Keys <= Run(st, reqs).wallets.Keys
    decreases |reqs|
  {
    if reqs != [] {
      var next := Step(st, reqs[0]);
      StepAppendsOnly(st, reqs[0]);
      RunAppendsOnly(next, reqs[1..]);
      var fin := Run(st, reqs);
      assert fin.accounts[..|st.accounts|] == fin.accounts[..|next.accounts|][..|st.accounts|];
      assert fin.bets[..|st.bets|] == fin.bets[..|next.bets|][..|st.bets|];
      assert fin.transactions[..|st.transactions|] == fin.transactions[..|next.transactions|][..|st.transactions|];
    }
  }

  /** A user's balance, counting a user who has no wallet yet as holding 0. */
  function Opening(st: LedgerState, u: UserId): real {
    if u in st.wallets then st.wallets[u] else 0.0
  }

  /** One request moves each balance by exactly the net winnings of the bets it appends. */
  lemma StepMovesBalances(st: LedgerState, req: Request, u: UserId)
    requires Inv(st)
    ensures |st.bets| <= |Step(st, req).bets|
    ensures Opening(Step(st, req), u) == Opening(st, u) + NetWinnings(Step(st, req).bets[|st.bets|..], u)
  {
  }

  /** Two balance moves, each by the net winnings of the bets appended, compose into one. */
  lemma ChainBalances(a: LedgerState, b: LedgerState, c: LedgerState, u: UserId)
    requires |a.bets| <= |b.bets| <= |c.bets| && c.bets[..|b.bets|] == b.bets
    requires Opening(b, u) == Opening(a, u) + NetWinnings(b.bets[|a.bets|..], u)
    requires Opening(c, u) == Opening(b, u) + NetWinnings(c.bets[|b.bets|..], u)
    ensures Opening(c, u) == Opening(a, u) + NetWinnings(c.bets[|a.bets|..], u)
  {
    assert c.bets == b.bets + c.bets[|b.bets|..];
    assert c.bets[|a.bets|..] == b.bets[|a.bets|..] + c.bets[|b.bets|..];
    NetWinningsConcat(b.bets[|a.bets|..], c.bets[|b.bets|..], u);
  }

  /**
   * Conservation: after any requests from a valid database, every balance is
   * its opening balance plus the payouts minus the stakes of that user's
   * bets settled meanwhile, exactly, however many bets there were.
   */
  lemma {:induction false} Conservation(st: LedgerState, reqs: seq<Request>, u: UserId)
    requires Inv(st)
    ensures |st.bets| <= |Run(st, reqs).bets|
    ensures Opening(Run(st, reqs), u) == Opening(st, u) + NetWinnings(Run(st, reqs).bets[|st.bets|..], u)
    decreases |reqs|
  {
    if reqs == [] {
      assert st.bets[|st.bets|..] == [];
    } else {
      var next := Step(st, reqs[0]);
      StepMovesBalances(st, reqs[0], u);
      StepPreservesInv(st, reqs[0]);
      Conservation(next, reqs[1..], u);
      RunAppendsOnly(next, reqs[1..]);
      ChainBalances(st, next, Run(next, reqs[1..]), u);
    }
  }

  /** In a valid state, any tail of the transaction log agrees with the same tail of the bet log. */
  lemma TailsReconcile(st: LedgerState, k: nat, u: UserId)
    requires Inv(st)
    requires k <= |st.bets|
    ensures TxNet(st.transactions[k..], u) == NetWinnings(st.bets[k..], u)
  {
    var txs, bets := st.transactions[k..], st.bets[k..];
    assert forall i :: 0 <= i < |bets| ==> bets[i] == st.bets[k + i] && txs[i] == st.transactions[k + i];
    TxNetOfBets(txs, bets, u);
  }

  /**
   * The transaction rows written by any requests account for every balance
   * change exactly, read as `TxDelta` reads them.
   */
  lemma TransactionsAccountForBalances(st: LedgerState, reqs: seq<Request>, u: UserId)
    requires Inv(st)
    ensures |st.transactions| <= |Run(st, reqs).transactions|
    ensures Opening(Run(st, reqs), u) == Opening(st, u) + TxNet(Run(st, reqs).transactions[|st.transactions|..], u)
  {
    Conservation(st, reqs, u);
    RunPreservesInv(st, reqs);
    TailsReconcile(Run(st, reqs), |st.bets|, u);
  }

  /** A database with no bets and only zero balances. */
  ghost predicate Unfunded(st: LedgerState) {
    st.bets == [] && st.transactions == [] && forall u :: u in st.wallets ==> st.wallets[u] == 0.0
  }

  /** Without a way to deposit, an unfunded database stays unfunded. */
  lemma {:induction false} UnfundedStaysUnfunded(st: LedgerState, reqs: seq<Request>)
    requires Unfunded(st)
    ensures Unfunded(Run(st, reqs))
    decreases |reqs|
  {
    if reqs != [] {
      assert Unfunded(Step(st, reqs[0]));
      UnfundedStaysUnfunded(Step(st, reqs[0]), reqs[1..]);
    }
  }

  /**
   * Wallets start at 0 and only bets change them, so on a database created
   * empty every bet is refused, whatever came before.
   */
  lemma FreshDatabaseRefusesBets(reqs: seq<Request>, user: UserId, rawChoice: Option<string>, stake: real, outcome: Side)
    ensures Coinflip(Run(Empty, reqs), user, rawChoice, stake, outcome).response.Failure?
  {
    UnfundedStaysUnfunded(Empty, reqs);
  }

  // ---------- Worked scenarios ----------

  /** One user, id 1, holding `balance`. */
  function OneWallet(balance: real): LedgerState {
    LedgerState([Account(1, "alice", None)], map[1 := balance], [], [])
  }

  /** The scenarios' starting states satisfy the invariant. */
  lemma OneWalletInv(balance: real)
    requires 0.0 <= balance
    ensures Inv(OneWallet(balance))
  {
  }

  /** Balance 100.00, stake 10.00 on heads, heads comes up: payout 19.00, balance 109.00. */
  lemma WinScenario()
    ensures var r := Coinflip(OneWallet(100.0), 1, Some("Heads"), 10.0, Heads);
      && r.response == Success(Receipt(Heads, 19.0, 109.0))
      && |r.state.bets| == 1 && |r.state.transactions| == 1
      && r.state.transactions[0] == Transaction(1, 19.0, Win, Metadata("heads", Heads))
  {
    assert Text.Lower("Heads") == "heads";
  }

  /** Balance 100.00, stake 10.00 on heads, tails comes up: balance 90.00. */
  lemma LossScenario()
    ensures var r := Coinflip(OneWallet(100.0), 1, Some("heads"), 10.0, Tails);
      && r.response == Success(Receipt(Tails, 0.0, 90.0))
      && r.state.transactions == [Transaction(1, 10.0, Bet, Metadata("heads", Tails))]
      && r.state.bets == [CoinflipBet(1, "heads", 10.0, Tails, 0.0)]
  {
    assert Text.Lower("heads") == "heads";
  }

  /** Balance 5.00, stake 10.00: insufficient funds, nothing changes. */
  lemma InsufficientFundsScenario(outcome: Side)
    ensures var r := Coinflip(OneWallet(5.0), 1, Some("heads"), 10.0, outcome);
      r.response == Failure(InsufficientFunds) && r.state == OneWallet(5.0)
  {
  }
}
