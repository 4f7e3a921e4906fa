/** Folding a finished session into a history record, and folding a history
    of records into one aggregate. */
module Summary {
  import opened Records
  import opened Sums
  import opened Scorer

  /** All recipients a transaction saw: accepted, temp-failed and perm-failed. */
  function RecipientsOf(tx: Transaction): nat
  {
    tx.rcptToOK + tx.rcptToTempfail + tx.rcptToPermfail
  }

  /** The recipient count of each transaction, in order. */
  function RecipientColumn(txs: seq<Transaction>): (r: seq<nat>)
    ensures |r| == |txs|
    ensures forall i :: 0 <= i < |txs| ==> r[i] == RecipientsOf(txs[i])
  {
    seq(|txs|, i requires 0 <= i < |txs| => RecipientsOf(txs[i]))
  }

  /** 1 for each transaction that saw a data phase, 0 for the others. */
  function DataColumn(txs: seq<Transaction>): (r: seq<nat>)
    ensures |r| == |txs|
    ensures forall i :: 0 <= i < |txs| ==> r[i] == (if txs[i].sawData then 1 else 0)
  {
    seq(|txs|, i requires 0 <= i < |txs| => if txs[i].sawData then 1 else 0)
  }

  /** 1 for each committed transaction, 0 for the others. */
  function CommitColumn(txs: seq<Transaction>): (r: seq<nat>)
    ensures |r| == |txs|
    ensures forall i :: 0 <= i < |txs| ==> r[i] == (if txs[i].committed then 1 else 0)
  {
    seq(|txs|, i requires 0 <= i < |txs| => if txs[i].committed then 1 else 0)
  }

  /** The counters kept by the summarising loop. */
  datatype Tally = Tally(rcpt: nat, data: nat, commit: nat, rollback: nat)

  /** The counters after visiting `txs` in order: each transaction adds its
      recipients, one data phase if it saw one, and counts as either committed
      or rolled back. */
  function TallyOf(txs: seq<Transaction>): (t: Tally)
    ensures t.commit + t.rollback == |txs|
    ensures t.data <= |txs|
    ensures t.rcpt == SumNat(RecipientColumn(txs))
    ensures t.data == SumNat(DataColumn(txs))
    ensures t.commit == SumNat(CommitColumn(txs))
    ensures t.commit == 0 <==> forall i :: 0 <= i < |txs| ==> !txs[i].committed
  {
    if |txs| == 0 then Tally(0, 0, 0, 0)
    else
      var n := |txs| - 1;
      var t := TallyOf(txs[..n]);
      var tx := txs[n];
      assert RecipientColumn(txs[..n]) == RecipientColumn(txs)[..n];
      assert DataColumn(txs[..n]) == DataColumn(txs)[..n];
      assert CommitColumn(txs[..n]) == CommitColumn(txs)[..n];
      assert forall i :: 0 <= i < n ==> txs[..n][i] == txs[i];
      Tally(
        t.rcpt + RecipientsOf(tx),
        if tx.sawData then t.data + 1 else t.data,
        if tx.committed then t.commit + 1 else t.commit,
        if tx.committed then t.rollback else t.rollback + 1)
  }

  /** The record written to history when a session ends, stamped `now`. */
  function SummarizeSession(s: SessionData, now: int): (r: Scoring)
    ensures r.timestamp == now
    ensures r.score == ScoreSession(s) && 0.0 <= r.score <= 1.0
    ensures r.authFailures == s.authfail && r.authSuccesses == s.authok && r.resets == s.nResets
    ensures r.commitCount + r.rollbackCount == |s.transactions|
    ensures r.dataCount <= |s.transactions|
    ensures r.rcptCount == SumNat(RecipientColumn(s.transactions))
    ensures r.dataCount == SumNat(DataColumn(s.transactions))
    ensures r.commitCount == SumNat(CommitColumn(s.transactions))
    ensures r.commitCount == 0 <==> forall i :: 0 <= i < |s.transactions| ==> !s.transactions[i].committed
  {
    var t := TallyOf(s.transactions);
    Scoring(now, ScoreSession(s), s.authfail, s.authok, s.nResets, t.rcpt, t.data, t.commit, t.rollback)
  }

  /** The counters of a history record that aggregation sums. */
  datatype Counter = AuthFailures | AuthSuccesses | Resets | Rcpts | Data | Commits | Rollbacks

  function Count(r: Scoring, c: Counter): nat
  {
    match c
    case AuthFailures => r.authFailures
    case AuthSuccesses => r.authSuccesses
    case Resets => r.resets
    case Rcpts => r.rcptCount
    case Data => r.dataCount
    case Commits => r.commitCount
    case Rollbacks => r.rollbackCount
  }

  /** One counter of each record of a history, in order. */
  function CounterColumn(h: seq<Scoring>, c: Counter): (r: seq<nat>)
    ensures |r| == |h|
    ensures forall i :: 0 <= i < |h| ==> r[i] == Count(h[i], c)
  {
    seq(|h|, i requires 0 <= i < |h| => Count(h[i], c))
  }

  /** The score of each record of a history, in order. */
  function ScoreColumn(h: seq<Scoring>): (r: seq<real>)
    ensures |r| == |h|
    ensures forall i :: 0 <= i < |h| ==> r[i] == h[i].score
  {
    seq(|h|, i requires 0 <= i < |h| => h[i].score)
  }

  /** The accumulator of the aggregation loop after visiting `h` in order:
      every counter and the score are running totals; the timestamp stays zero. */
  function Totals(h: seq<Scoring>): (t: Scoring)
    ensures t.timestamp == 0
    ensures t.score == Sum(ScoreColumn(h))
    ensures forall c :: Count(t, c) == SumNat(CounterColumn(h, c))
  {
    if |h| == 0 then ZeroScoring
    else
      var n := |h| - 1;
      var t := Totals(h[..n]);
      var x := h[n];
      assert ScoreColumn(h[..n]) == ScoreColumn(h)[..n];
      assert forall c :: CounterColumn(h[..n], c) == CounterColumn(h, c)[..n];
      Scoring(
        0,
        t.score + x.score,
        t.authFailures + x.authFailures,
        t.authSuccesses + x.authSuccesses,
        t.resets + x.resets,
        t.rcptCount + x.rcptCount,
        t.dataCount + x.dataCount,
        t.commitCount + x.commitCount,
        t.rollbackCount + x.rollbackCount)
  }

  /** Aggregate of a history: the zero record when empty, otherwise every
      counter summed over the history and the score averaged. */
  function AggregateScoring(h: seq<Scoring>): (r: Scoring)
    ensures |h| == 0 ==> r == ZeroScoring
    ensures r.timestamp == 0
    ensures forall c :: Count(r, c) == SumNat(CounterColumn(h, c))
    ensures |h| > 0 ==> r.score == Mean(ScoreColumn(h))
    ensures InRange(ScoreColumn(h), 0.0, 1.0) ==> 0.0 <= r.score <= 1.0
  {
    if |h| == 0 then ZeroScoring
    else
      var t := Totals(h);
      MeanInUnit(ScoreColumn(h));
      t.(score := t.score / (|h| as real))
  }
}
