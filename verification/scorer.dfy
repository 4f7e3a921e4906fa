/** The two scoring functions: one transaction, and one whole session. Both
    are weighted sums clamped into [0, 1]; float64 arithmetic is modelled by
    exact reals. */
module Scorer {
  import opened Records
  import opened Sums

  // Transaction weights.
  const ValidSenderWeight: real := 0.4
  const DataWeight: real := 0.3
  const CommitWeight: real := 0.3
  const SuccessfulRecipientWeight: real := 0.1
  const FailedRecipientPenalty: real := 0.2

  // Session weights.
  const AuthSuccessWeight: real := 0.1
  const AuthFailurePenalty: real := 0.1
  const TlsWeight: real := 0.2
  const RdnsWeight: real := 0.1
  const FcrdnsWeight: real := 0.1
  const ResetPenalty: real := 0.05

  /** max(0, min(1, x)): the nearest point of [0, 1] to x. */
  function Clamp(x: real): (r: real)
    ensures 0.0 <= r <= 1.0
    ensures 0.0 <= x <= 1.0 ==> r == x
    ensures x < 0.0 ==> r == 0.0
    ensures x > 1.0 ==> r == 1.0
  {
    if x > 1.0 then 1.0 else if x < 0.0 then 0.0 else x
  }

  lemma ClampMonotone(x: real, y: real)
    requires x <= y
    ensures Clamp(x) <= Clamp(y)
  {
  }

  function Bonus(flag: bool, weight: real): real
  {
    if flag then weight else 0.0
  }

  /** The failed recipients of a transaction, temporary and permanent together. */
  function FailedRecipients(tx: Transaction): nat
  {
    tx.rcptToTempfail + tx.rcptToPermfail
  }

  /** The weighted sum of a transaction before clamping. */
  function RawTransactionScore(tx: Transaction): real
  {
    Bonus(tx.mailFromOK, ValidSenderWeight)
    + Bonus(tx.sawData, DataWeight)
    + Bonus(tx.committed, CommitWeight)
    + (tx.rcptToOK as real) * SuccessfulRecipientWeight
    - (FailedRecipients(tx) as real) * FailedRecipientPenalty
  }

  function ScoreTransaction(tx: Transaction): (r: real)
    ensures 0.0 <= r <= 1.0
  {
    Clamp(RawTransactionScore(tx))
  }

  /** `better` has every flag `worse` has, at least as many accepted
      recipients and at most as many failed ones. */
  predicate NoWorseThan(better: Transaction, worse: Transaction)
  {
    && (worse.mailFromOK ==> better.mailFromOK)
    && (worse.sawData ==> better.sawData)
    && (worse.committed ==> better.committed)
    && worse.rcptToOK <= better.rcptToOK
    && FailedRecipients(better) <= FailedRecipients(worse)
  }

  /** The transaction score is monotone: non-decreasing in each flag and in the
      accepted recipients, non-increasing in the failed recipients. */
  lemma ScoreTransactionMonotone(better: Transaction, worse: Transaction)
    requires NoWorseThan(better, worse)
    ensures ScoreTransaction(worse) <= ScoreTransaction(better)
  {
    ClampMonotone(RawTransactionScore(worse), RawTransactionScore(better));
  }

  /** Accepted sender, data, commit and two accepted recipients: 1.2 clamps to 1. */
  lemma ScoreTransactionFullDelivery()
    ensures ScoreTransaction(Transaction(0, 0, true, 2, 0, 0, true, true)) == 1.0
  {
  }

  /** Accepted sender and one temporarily failed recipient: 0.4 - 0.2. */
  lemma ScoreTransactionOneTempfail()
    ensures ScoreTransaction(Transaction(0, 0, true, 0, 1, 0, false, false)) == 0.2
  {
  }

  /** The score of each transaction, in order. */
  function TransactionScores(txs: seq<Transaction>): (r: seq<real>)
    ensures |r| == |txs|
    ensures forall i :: 0 <= i < |txs| ==> r[i] == ScoreTransaction(txs[i])
    ensures InRange(r, 0.0, 1.0)
  {
    seq(|txs|, i requires 0 <= i < |txs| => ScoreTransaction(txs[i]))
  }

  /** The transaction part of a session's score: 0 without transactions,
      otherwise the mean transaction score. */
  function TransactionBase(txs: seq<Transaction>): (b: real)
    ensures 0.0 <= b <= 1.0
    ensures |txs| == 0 ==> b == 0.0
    ensures |txs| > 0 ==> b == Mean(TransactionScores(txs))
  {
    if |txs| == 0 then 0.0
    else
      MeanBounds(TransactionScores(txs), 0.0, 1.0);
      Mean(TransactionScores(txs))
  }

  /** If every transaction scores the same, the base is that score. */
  lemma TransactionBaseUniform(txs: seq<Transaction>, v: real)
    requires |txs| > 0
    requires forall i :: 0 <= i < |txs| ==> ScoreTransaction(txs[i]) == v
    ensures TransactionBase(txs) == v
  {
    MeanConstant(TransactionScores(txs), v);
  }

  /** The weighted sum of a session before clamping. */
  function RawSessionScore(s: SessionData): real
  {
    TransactionBase(s.transactions)
    + (s.authok as real) * AuthSuccessWeight
    - (s.authfail as real) * AuthFailurePenalty
    + Bonus(s.cmdTLS, TlsWeight)
    + Bonus(s.rdns, RdnsWeight)
    + Bonus(s.fcrdns, FcrdnsWeight)
    - (s.nResets as real) * ResetPenalty
  }

  function ScoreSession(s: SessionData): (r: real)
    ensures 0.0 <= r <= 1.0
  {
    Clamp(RawSessionScore(s))
  }

  /** Without transactions only the session-level signals count. */
  lemma ScoreSessionWithoutTransactions(s: SessionData)
    requires s.transactions == []
    ensures ScoreSession(s) == Clamp(
      (s.authok as real) * AuthSuccessWeight - (s.authfail as real) * AuthFailurePenalty
      + Bonus(s.cmdTLS, TlsWeight) + Bonus(s.rdns, RdnsWeight) + Bonus(s.fcrdns, FcrdnsWeight)
      - (s.nResets as real) * ResetPenalty)
  {
  }

  /** A fresh session with no events at all scores 0. */
  lemma ScoreNewSession()
    ensures ScoreSession(NewSession()) == 0.0
  {
  }

  /** Successful authentications, TLS and DNS checks never lower the session
      score; failed authentications and resets never raise it. */
  lemma ScoreSessionMonotone(better: SessionData, worse: SessionData)
    requires better.transactions == worse.transactions
    requires worse.authok <= better.authok && better.authfail <= worse.authfail
    requires worse.cmdTLS ==> better.cmdTLS
    requires worse.rdns ==> better.rdns
    requires worse.fcrdns ==> better.fcrdns
    requires better.nResets <= worse.nResets
    ensures ScoreSession(worse) <= ScoreSession(better)
  {
    ClampMonotone(RawSessionScore(worse), RawSessionScore(better));
  }
}
