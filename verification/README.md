# filter-reputation, modelled in Dafny

A model of the reputation engine of `filter-reputation`, an OpenSMTPD filter
that scores each inbound SMTP session from what the client did and keeps, per
client address, a short history of past session scores.

The model covers:

- **Transaction scorer** (`Scorer.ScoreTransaction`): weighted flags for an
  accepted sender (0.4), a data phase (0.3) and a commit (0.3), plus 0.1 per
  accepted recipient and minus 0.2 per failed recipient (temporary and
  permanent failures together), clamped to [0, 1].
- **Session scorer** (`Scorer.ScoreSession`): the mean transaction score (0
  without transactions), plus 0.1 per successful and minus 0.1 per failed
  authentication, 0.2 for TLS, 0.1 each for reverse DNS and forward-confirmed
  reverse DNS, minus 0.05 per reset, clamped to [0, 1].
- **Summaries** (`Summary.SummarizeSession`, `Summary.AggregateScoring`): the
  record appended to an address's history at disconnect, and the aggregate of a
  history (summed counters, mean score).
- **History store** (`History`): a map from address to its summaries, oldest
  first; append at disconnect; the prior trust at connect (neutral 0.5 below
  five stored sessions, otherwise the mean score); one maintenance sweep pass
  (histories over 100 entries are cut to the newest 100, otherwise a history
  whose newest entry is more than five days old is deleted).
- **Event handlers** (`Handlers`): connect, disconnect, identify, auth, TLS,
  reset and the transaction events, as pure transitions of the session state
  and the store; `Handlers.Step` dispatches an event to its handler.
- **The running filter** (`Engine`): many sessions and the sweep interleaved
  arbitrarily over one shared store.

Modelling conventions: float64 arithmetic is exact `real` arithmetic; times
are whole seconds (`int`), the zero time being 0; the current time
(`time.Now()` in the original) is an explicit `now` argument of the sweep and
of summarising; the peer address is a `string` key, and whether the peer is a
TCP peer is a `bool` argument of connect. The framework's session allocator is
`Records.NewSession`, the all-zero session.

Behaviours of the Go code worth knowing, all kept by the model:

- Transactions are never frozen: every transaction event updates the last
  transaction whatever its state, and a rollback after a commit leaves
  `committed` set (filter-reputation.go:378-386, `Handlers.TxRollback`).
- The summary counts every transaction that was not committed as a rollback,
  including one still open at disconnect (filter-reputation.go:198-202,
  `Summary.TallyOf`).
- The data event marks the data phase as seen whatever its result
  (filter-reputation.go:359-365, `Handlers.TxData`).
- Connect resets the transaction list and does not check `skip` itself; it is
  the first event of a session (filter-reputation.go:243-255).
- An oversized history is trimmed, never expired, in the pass that trims it
  (filter-reputation.go:39-44, `History.Sweep`).

## Model

| member | source | states |
|---|---|---|
| Records.NewSession | filter-reputation.go:391-393 | the session allocated before any event is all zero: not skipped, no rDNS, FCrDNS or TLS, zero auth and reset counters, no transactions |
| Scorer.Clamp | filter-reputation.go:129-130 | the result is in [0, 1]; it is the input when the input is in [0, 1], 0 below and 1 above |
| Scorer.ScoreTransaction | filter-reputation.go:102-132 | every transaction scores in [0, 1] |
| Scorer.ScoreTransactionMonotone | filter-reputation.go:111-130 | a transaction with every flag of another, at least as many accepted and at most as many failed (temp + perm) recipients never scores lower |
| Scorer.ScoreTransactionFullDelivery | filter-reputation.go:103-130 | accepted sender, data, commit and two accepted recipients score exactly 1.0 |
| Scorer.ScoreTransactionOneTempfail | filter-reputation.go:103-130 | an accepted sender with one temp-failed recipient and nothing else scores exactly 0.2 |
| Scorer.TransactionScores | filter-reputation.go:150-152 | one entry per transaction, entry i being the score of transaction i, each in [0, 1] |
| Scorer.TransactionBase | filter-reputation.go:144-155 | the transaction part of a session score is 0 when there are no transactions and otherwise the arithmetic mean of the transaction scores; it is in [0, 1] |
| Scorer.TransactionBaseUniform | filter-reputation.go:147-155 | the transaction part is the mean: when every transaction scores v it is v |
| Scorer.ScoreSession | filter-reputation.go:134-185 | every session scores in [0, 1] |
| Scorer.ScoreSessionWithoutTransactions | filter-reputation.go:144-182 | with no transactions the score is the clamped sum of the auth, TLS, rDNS, FCrDNS and reset terms alone |
| Scorer.ScoreNewSession | filter-reputation.go:144-182 | the all-zero session scores 0 |
| Scorer.ScoreSessionMonotone | filter-reputation.go:157-179 | more auth successes, TLS, rDNS or FCrDNS never lower the score; more auth failures or resets never raise it |
| Summary.TallyOf | filter-reputation.go:188-203 | data count = number of transactions that saw data; commit count = number of committed transactions; commits + rollbacks = number of transactions; recipient count = sum of ok + tempfail + permfail over the transactions; no commit counted iff no transaction committed |
| Summary.SummarizeSession | filter-reputation.go:187-216 | the summary is stamped `now`, carries the session score (in [0, 1]), copies the auth and reset counters; its data and commit counts are the numbers of data-seen and committed transactions, commits + rollbacks = number of transactions, recipients = sum of ok + tempfail + permfail, and commit count is 0 iff no transaction committed |
| Summary.Totals | filter-reputation.go:224-235 | the single accumulation pass yields, for every counter, the sum of that counter over the history and the sum of the scores; its timestamp stays zero |
| Summary.AggregateScoring | filter-reputation.go:218-241 | empty history gives the zero record; otherwise every counter is the sum over the history and the score is the mean score; scores in [0, 1] give an aggregate score in [0, 1] |
| History.Record | filter-reputation.go:275-277 | appends exactly one summary to its own key (creating it if absent), leaves every other key unchanged and keeps every history non-empty |
| History.Prior | filter-reputation.go:256-265 | 0.5 when the address is absent or has fewer than 5 entries, whatever they hold; otherwise the mean stored score; in [0, 1] when the stored scores are |
| History.PriorOfShortHistory | filter-reputation.go:261-262 | an address with no history or fewer than five entries gets exactly 0.5 |
| History.PriorOfFiveSessions | filter-reputation.go:261-264 | five stored scores 0.2, 0.4, 0.6, 0.8, 1.0 give the prior 0.6 |
| History.SweepHistory | filter-reputation.go:39-44 | a kept history is a non-empty suffix of the original of length at most 100 |
| History.Sweep | filter-reputation.go:38-45 | a history over 100 entries becomes its last 100 in order and is kept even if stale; otherwise a stale one is removed and a fresh one is unchanged; no key is added; afterwards every history is non-empty and at most 100 long |
| History.SweepPass | filter-reputation.go:38-45 | overwriting and deleting keys in place while iterating over the map gives exactly the key-by-key result of one sweep |
| History.RecordThenSweepKeepsNewest | filter-reputation.go:39-40 | appending a 101st summary and sweeping leaves exactly the newest 100, in original order |
| Handlers.LinkConnect | filter-reputation.go:243-265 | a non-TCP peer only gets `skip` set and no prior; a TCP peer gets address, connect time, rDNS ("<unknown>" means unresolved) and FCrDNS ("ok" or "pass") recorded, an empty transaction list, and the prior of its address, which is 0.5 without enough history |
| Handlers.LinkDisconnect | filter-reputation.go:269-277 | a skipped session changes nothing; otherwise one summary stamped `now` is appended to its own address's history, no other key changes and the store stays non-empty per key |
| Handlers.LinkIdentify | filter-reputation.go:282-293 | records HELO / EHLO use and the hostname, changes nothing else and leaves the session score unchanged |
| Handlers.LinkAuth | filter-reputation.go:295-305 | exactly one of the two counters goes up: successes iff the result is "ok"; a success never lowers and a failure never raises the session score |
| Handlers.LinkTLS | filter-reputation.go:307-313 | marks TLS and its descriptor; never lowers the session score |
| Handlers.TxReset | filter-reputation.go:315-320 | one more reset and nothing else; never raises the session score |
| Handlers.TxBegin | filter-reputation.go:322-332 | appends exactly one zeroed transaction stamped with the event time and changes nothing else |
| Handlers.TxMail | filter-reputation.go:334-343 | only the last transaction changes; the sender becomes accepted iff the result is "ok" or it already was; the transaction score never drops |
| Handlers.TxRcpt | filter-reputation.go:345-357 | only the last transaction changes; exactly the counter named by the result goes up by one, and none for any other result; "ok" never lowers and anything else never raises the transaction score |
| Handlers.TxData | filter-reputation.go:359-365 | only the last transaction changes: its data phase is seen whatever the result |
| Handlers.TxCommit | filter-reputation.go:367-376 | only the last transaction changes: committed, with the event time as end time; its score never drops |
| Handlers.TxRollback | filter-reputation.go:378-386 | only the last transaction's end time changes; its score stays the same |
| Handlers.Step | filter-reputation.go:395-406 | every event leaves the store unchanged except disconnect, which touches only the session's own key; the store stays non-empty per key; only connect changes the session's address or skip flag |
| Handlers.SkippedSessionIgnoresEvents | filter-reputation.go:269-386 | once `skip` is set, every handler except connect leaves the session and the store exactly as they were |
| Handlers.NonTcpPeerIsSkipped | filter-reputation.go:244-247 | after connect from a non-TCP peer, any later event changes nothing |
| Handlers.TransactionsOnlyGrow | filter-reputation.go:322-386 | no event after connect removes a transaction or changes any but the last; begin adds exactly one, the others keep the count |
| Engine.Perform | filter-reputation.go:339 | a delivered event fails (the original panics) exactly when it needs a transaction and its session has none; other sessions are untouched; a sweep leaves every history at most 100 long and adds no key |
| Engine.Run | filter-reputation.go:38-45 | over any interleaving of sessions' events and sweeps every stored history stays non-empty, so the newest-entry lookup of the sweep is always defined, and stored scores stay in [0, 1] |
| Engine.RunEndingInSweepIsBounded | filter-reputation.go:38-45 | whatever came before, right after a sweep every history has at most 100 entries |

## Left out

- The background goroutine, its 30-second `time.Sleep` and the mutex around the store: the sweep is one function application, and `Engine` interleaves actions arbitrarily instead of modelling locks.
- `time.Now()`: passed in as `now`; event timestamps are whole seconds, not nanosecond `time.Time` values.
- The sweep reads the clock again for every key it examines (filter-reputation.go:41); `History.Sweep` uses one `now` for the whole pass, so for a key whose newest entry turns five days old while the pass is running the model's decision can differ from the original's.
- Logging to stderr, including the prior and the scores it prints: only the values are modelled.
- `main`, the framework's handler registration, dispatch and session allocator: the allocator is the all-zero session, the dispatch is `Handlers.Step`.
- The `net.Addr` to `*net.TCPAddr` type assertion and `net.IP` formatting: replaced by an `isTCP` flag and an address string.
- IEEE-754 rounding: arithmetic is exact over `real`, so for example 0.4 + 0.3 + 0.3 + 0.2 is exactly 1.2 before clamping.
- 64-bit wrap-around of the Go `int` counters: counters are unbounded naturals, which never decrease in the original.
- Handler arguments that no handler reads (message ids, the auth user name, the envelope sender and recipient, the message size) are not part of the events.
