# PyChance coin-flip ledger, modelled in Dafny

PyChance is a small Flask application. Users register and hold a wallet balance, then stake part of it on a coin flip.
This project models the part with real logic: the database state the handlers change, and the two handlers that change it.

- **`coinflip`** validates a stake. It then settles the bet against the outcome of the flip.
  It updates the wallet and appends one transaction row and one bet row.
- **`register`** refuses a taken username. Otherwise it creates the user and a wallet with balance 0.

Layout, one module per file:

- `wrappers.dfy` (`Wrappers`): `Option` and `Result`.
- `text.dfy` (`Text`): Python's `str.strip()` and `str.lower()` as the handlers use them.
- `records.dfy` (`Records`): the rows of the `users`, `transactions` and `coinflip_bets` tables, and the two sides of the coin.
- `settlement.dfy` (`Settlement`): the database as a value (`LedgerState`), and the two handlers as pure state transitions (`Coinflip`, `Register`).
  It also holds the structural invariant `Inv` and the lemmas that both transitions keep it.
  `Inv` says nothing about how a balance was funded, so it holds of a database whose wallets already hold money.
  The lemmas here also prove that, in any valid state, the transaction log and the bet log agree on every user's net gain.
- `history.dfy` (`History`): runs of many requests from any valid database, funded or not. It proves:
  - no balance goes negative;
  - the tables are append-only;
  - exact conservation over any number of bets: each balance is its opening balance plus the payouts minus the stakes of the user's bets, and equally the sum of the transaction rows written.

  It also proves that a database created empty refuses every bet. Wallets are created at 0 and only bets change them, so no stake is ever affordable.
  It also holds the worked scenarios: a win, a loss and insufficient funds, each from a wallet holding money.
- `pychance.dfy` (`PyChance`): class `Ledger`, the database as a mutable object.
  Its `Register` and `PlaceBet` methods assign the wallet map and append to the two record sequences as the handlers do.
  Each method is proved, for any stored state, to produce exactly the state and response of the matching `Settlement` function, and to keep `Inv` when it held before.

Modelling choices:

- The coin's outcome (`heads`/`tails`) is a parameter of the bet.
- The stake is an already-parsed exact number (`real`), so `stake * 1.9` is exact, as it is with Python `Decimal`.
- `choice` is the submitted value or absent. An absent or empty choice becomes `""`, and the result is lower-cased.
- Balances are a map from user id to amount. The `Wallet` row's own id and `updated_at` are not modelled.
- User ids are assigned 1, 2, 3, … in order of creation, like the table's autoincrementing key.

Where the code and the design description disagree, the model follows the code:

- A winning bet appends **one** transaction: type `'win'` with the gross payout as its amount. There is no separate stake entry.
  Transaction amounts are unsigned, so the type gives the direction.
  Because of this, `TxDelta` reads a `'win'` row as a net gain of amount × 9/19. `TransactionsAccountForBalances` proves that this accounts for every balance change.
- The choice is not validated. Any string other than `heads`/`tails`, after lower-casing, is accepted and always loses.
- The stake is not limited to two decimals, and the payout is not rounded by the code.
- The register handler stores the e-mail in a column with a uniqueness constraint. A second row with the same present e-mail makes the insert fail, so the user is not created.
  Note that an empty e-mail field is also a present value.

## Model

| member | source | states |
|---|---|---|
| `Text.Strip` | app.py:71 | the result is the slice of the input between its first and last non-whitespace character (Python's `isspace` set); everything cut off is whitespace; the result is empty exactly when the input is all whitespace |
| `Text.StripIdempotent` | app.py:71 | a stripped username has nothing left to strip |
| `Text.Lower` | app.py:115 | same length; each character is lowered, and ASCII capitals become small letters |
| `Text.LowerIdempotent` | app.py:115 | lower-casing an already lower-cased choice changes nothing |
| `Records.SideName` | app.py:131 | the outcome strings are exactly `"heads"` and `"tails"`, one per side |
| `Settlement.Coinflip` | app.py:113-151 | rejects with `NonPositiveStake` iff stake ≤ 0, then `NoWallet` iff the user has no wallet, then `InsufficientFunds` iff balance < stake; a rejection leaves the state unchanged; a settled bet pays 1.9 × stake and raises the balance by 0.9 × stake on a win, pays 0 and lowers the balance by the stake on a loss; the new balance is ≥ 0 and is the one reported; no other wallet or user changes; exactly one bet row (choice, stake, result, payout) and one transaction row (`'win'` with the payout or `'bet'` with the stake, with metadata choice and result) are appended |
| `Settlement.OtherChoicesLose` | app.py:131-139 | a choice that is neither `heads` nor `tails` after lower-casing never wins and is paid nothing, whatever the stake and the outcome |
| `Settlement.Register` | app.py:68-87 | refuses with `UsernameTaken` iff the stripped username is in use, then `EmailTaken` iff the present e-mail is in use, changing nothing; otherwise appends exactly one user with the next id, the stripped name and the e-mail, adds exactly one wallet for that id with balance 0, and leaves both logs unchanged |
| `Settlement.EmptyInv` | app.py:153-156 | the freshly created empty database satisfies the ledger invariant |
| `Settlement.CoinflipPreservesInv` | app.py:120-145 | settling or rejecting a bet keeps the invariant: unique users, one wallet per user, no negative balance, transaction and bet rows paired and well-formed |
| `Settlement.RegisterPreservesInv` | app.py:74-84 | registration keeps the invariant; the new user's id had no wallet before, and the number of wallets grows by one |
| `Settlement.NetWinningsConcat` | app.py:136-139 | the net effect of the bet log on a user's balance adds up over concatenated logs |
| `Settlement.TxDeltaOfBet` | app.py:142 | the transaction row written for a bet stands for exactly that bet's payout minus stake |
| `Settlement.TransactionsReconcile` | app.py:136-145 | in every valid state, each user's transaction rows (a `'bet'` row as −amount, a `'win'` row as amount × 9/19) sum to that user's payouts minus stakes in the bet log |
| `History.RunPreservesInv` | app.py:74-145 | any sequence of registrations and bets from a valid state ends in a valid state |
| `History.BalanceNeverNegative` | app.py:127-139 | from any valid database, funded or not, no sequence of requests makes any balance negative |
| `History.RunAppendsOnly` | app.py:79-84 | users, transaction rows and bet rows are only appended, never changed or removed, and wallets are never removed |
| `History.StepMovesBalances` | app.py:82-145 | one request moves every user's balance (0 for a user without a wallet) by exactly the payouts minus the stakes of the bets it appends: a new wallet opens at 0, a bet moves only its own user's wallet |
| `History.Conservation` | app.py:133-145 | after any requests from any valid state, every balance is exactly its opening value (0 for users registered meanwhile) plus the payouts minus the stakes of that user's bets settled meanwhile |
| `History.TransactionsAccountForBalances` | app.py:136-145 | after any requests from any valid state, every balance is exactly its opening value plus the sum of that user's transaction rows written meanwhile |
| `History.UnfundedStaysUnfunded` | app.py:82-139 | a database with no bets and only zero balances stays so under any requests |
| `History.FreshDatabaseRefusesBets` | app.py:82-128 | on a database created empty, every bet is refused whatever requests came before, since no stake > 0 is affordable |
| `History.OneWalletInv` | app.py:32-37 | the scenarios' starting state, one user holding a non-negative balance, satisfies the invariant |
| `History.WinScenario` | app.py:133-137 | balance 100, stake 10 on `"Heads"`, heads: payout 19, balance 109, a `'win'` transaction of 19 with lower-cased choice |
| `History.LossScenario` | app.py:138-143 | balance 100, stake 10 on heads, tails: payout 0, balance 90, one `'bet'` transaction of 10 and one bet row |
| `History.InsufficientFundsScenario` | app.py:127-128 | balance 5, stake 10: `InsufficientFunds` whatever the outcome, state unchanged |
| `PyChance.Ledger.constructor` | app.py:153-156 | a new database is empty and valid |
| `PyChance.Ledger.Register` | app.py:71-84 | for any stored state, the in-place registration yields exactly the state and response of `Settlement.Register`, keeps the invariant when it held, and changes nothing on failure |
| `PyChance.Ledger.PlaceBet` | app.py:115-150 | for any stored state, the in-place settlement yields exactly the state and response of `Settlement.Coinflip`, keeps the invariant when it held, and changes nothing on failure |
| `PyChance.NewUserCannotBet` | app.py:82-128 | a client of the class: when registration succeeds, the new user's first bet is refused whatever the stake and outcome; either way no bet row and no transaction row is written |

## Left out

- HTTP routing, templates, `flash` messages, redirects and JSON responses: these are I/O. The error names stand for the JSON error strings.
- Login, logout, the session user loader and bcrypt password hashing: passwords are opaque and not stored in the model. The current user id is a parameter.
- `random.choice`: the outcome is an input. Fairness is a probabilistic property.
- Parsing the stake with `Decimal(str(...))` (app.py:116-119): the stake arrives already parsed. The "invalid stake" error, NaN and Infinity are not modelled.
- Reading form fields: a missing `username` or `password` field fails inside Flask.
- Text.Lower: does not lower non-ASCII capitals as Python's `str.lower()` does, only ASCII ones, so the choice stored in the records can differ for non-ASCII input.
  Whether a bet wins is unaffected, because no non-ASCII character lowers to `heads` or `tails`.
- `Decimal` context precision (28 digits) and the `Numeric(12,2)` rounding the database applies when it stores balances and amounts: amounts are exact reals.
  The column widths of usernames and choices are not modelled either.
- Database sessions and commits: each handler is one atomic step here.
  Not captured: the lost-update race between concurrent bets on one wallet (app.py:124-145), and the two separate commits in `register`, where a failure between them would leave a user without a wallet.
- Settlement.Register: a registration whose e-mail is already in use returns `EmailTaken` and changes nothing. The application does not handle this case: the insert raises a database integrity error, which becomes an error page.
- Timestamps (`created_at`, `updated_at`) and row ids of wallets, transactions and bets.
- `json.dumps` of the transaction metadata: it is a plain record `Metadata(choice, result)`.
- The `float(...)` conversions of the response: the receipt carries exact amounts.
