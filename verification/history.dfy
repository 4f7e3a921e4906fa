/** The process-wide reputation history: for each client address, the
    summaries of its past sessions, oldest first. The lock around it and the
    30-second background loop are not modelled; one sweep pass is a function
    of the store and the current time. */
module History {
  import opened Records
  import opened Sums
  import opened Summary

  type Store = map<string, seq<Scoring>>

  /** Longest history a sweep leaves behind. */
  const MaxHistory: nat := 100
  /** Fewer stored sessions than this and the history is not trusted. */
  const MinHistory: nat := 5
  /** Five days, in seconds: a history whose newest entry is older is dropped. */
  const RetentionSeconds: int := 5 * 24 * 60 * 60
  /** The prior given to an address without enough history. */
  const NeutralPrior: real := 0.5

  /** Every stored history is non-empty: histories are created by an append
      and only ever trimmed to MaxHistory entries or removed whole. */
  predicate Valid(store: Store)
  {
    forall k :: k in store ==> |store[k]| > 0
  }

  /** Every stored history is at most MaxHistory long. */
  predicate Bounded(store: Store)
  {
    forall k :: k in store ==> |store[k]| <= MaxHistory
  }

  /** Every stored score lies in [0, 1]. */
  predicate ScoresInUnit(store: Store)
  {
    forall k :: k in store ==> InRange(ScoreColumn(store[k]), 0.0, 1.0)
  }

  /** The history of `key`, empty when the key is absent. */
  function HistoryOf(store: Store, key: string): seq<Scoring>
  {
    if key in store then store[key] else []
  }

  /** Appends one summary to the history of `key`, creating it if needed. */
  function Record(store: Store, key: string, summary: Scoring): (r: Store)
    ensures r.Keys == store.Keys + {key}
    ensures r[key] == HistoryOf(store, key) + [summary]
    ensures forall k :: k in store && k != key ==> r[k] == store[k]
    ensures Valid(store) ==> Valid(r)
    ensures ScoresInUnit(store) && 0.0 <= summary.score <= 1.0 ==> ScoresInUnit(r)
  {
    var h := HistoryOf(store, key) + [summary];
    assert forall i :: 0 <= i < |h| - 1 ==> h[i] == HistoryOf(store, key)[i];
    store[key := h]
  }

  /** The trust assumed for `key` at connect time: neutral below MinHistory
      sessions, otherwise the mean score of its history. */
  function Prior(store: Store, key: string): (p: real)
    ensures key !in store || |store[key]| < MinHistory ==> p == NeutralPrior
    ensures key in store && |store[key]| >= MinHistory ==> p == Mean(ScoreColumn(store[key]))
    ensures ScoresInUnit(store) ==> 0.0 <= p <= 1.0
  {
    if key !in store || |store[key]| < MinHistory then NeutralPrior
    else AggregateScoring(store[key]).score
  }

  /** The newest entry of a non-empty history is more than five days older
      than `now`. */
  predicate Stale(h: seq<Scoring>, now: int)
    requires |h| > 0
  {
    h[|h| - 1].timestamp + RetentionSeconds < now
  }

  /** What one sweep pass makes of one non-empty history: an oversized one is
      cut to its newest MaxHistory entries (whatever their age), otherwise a
      stale one is dropped (None), otherwise it is kept. */
  function SweepHistory(h: seq<Scoring>, now: int): (r: Option<seq<Scoring>>)
    requires |h| > 0
    ensures r.Some? ==> 0 < |r.value| <= MaxHistory && |r.value| <= |h| && r.value == h[|h| - |r.value|..]
  {
    if |h| > MaxHistory then Some(h[|h| - MaxHistory..])
    else if Stale(h, now) then None
    else Some(h)
  }

  /** One maintenance pass over the whole store. */
  function Sweep(store: Store, now: int): (r: Store)
    requires Valid(store)
    ensures r.Keys <= store.Keys
    ensures forall k :: k in store && |store[k]| > MaxHistory ==>
      k in r && r[k] == store[k][|store[k]| - MaxHistory..]
    ensures forall k :: k in store && |store[k]| <= MaxHistory && Stale(store[k], now) ==> k !in r
    ensures forall k :: k in store && |store[k]| <= MaxHistory && !Stale(store[k], now) ==>
      k in r && r[k] == store[k]
    ensures Valid(r) && Bounded(r)
    ensures ScoresInUnit(store) ==> ScoresInUnit(r)
  {
    var r := map k | k in store && SweepHistory(store[k], now).Some? :: SweepHistory(store[k], now).value;
    assert forall k :: k in r ==> ScoreColumn(r[k]) == ScoreColumn(store[k])[|store[k]| - |r[k]|..];
    r
  }

  /** The sweep loop as written: visit every key once, in any order, and
      overwrite or delete that key in place. Doing so while iterating gives
      the same store as the key-by-key rule of Sweep. */
  method SweepPass(store: Store, now: int) returns (swept: Store)
    requires Valid(store)
    ensures swept == Sweep(store, now)
  {
    swept := store;
    var pending := store.Keys;
    while pending != {}
      invariant pending <= store.Keys
      invariant swept.Keys <= store.Keys
      invariant forall k :: k in pending ==> k in swept && swept[k] == store[k]
      invariant forall k :: k in swept && k !in pending ==> SweepHistory(store[k], now) == Some(swept[k])
      invariant forall k :: k in store && k !in pending && SweepHistory(store[k], now).Some? ==> k in swept
      decreases pending
    {
      var ip :| ip in pending;
      var scoring := swept[ip];
      if |scoring| > MaxHistory {
        swept := swept[ip := scoring[|scoring| - MaxHistory..]];
      } else if Stale(scoring, now) {
        swept := swept - {ip};
      }
      pending := pending - {ip};
    }
    assert swept.Keys == Sweep(store, now).Keys;
  }

  /** Appending the 101st summary and sweeping keeps exactly the newest 100,
      in their original order. */
  lemma RecordThenSweepKeepsNewest(store: Store, key: string, summary: Scoring, now: int)
    requires Valid(store)
    requires key in store && |store[key]| == MaxHistory
    ensures key in Sweep(Record(store, key, summary), now)
    ensures Sweep(Record(store, key, summary), now)[key] == store[key][1..] + [summary]
  {
    var h := store[key] + [summary];
    assert h[|h| - MaxHistory..] == store[key][1..] + [summary];
  }

  /** An address with no history, or too little, connects with the neutral
      prior whatever the stored scores are. */
  lemma PriorOfShortHistory(store: Store, key: string)
    requires key in store ==> |store[key]| < MinHistory
    ensures Prior(store, key) == 0.5
  {
  }

  /** Five stored sessions scoring 0.2, 0.4, 0.6, 0.8 and 1.0 give prior 0.6. */
  lemma PriorOfFiveSessions(key: string)
    ensures Prior(map[key := [Scored(0.2), Scored(0.4), Scored(0.6), Scored(0.8), Scored(1.0)]], key) == 0.6
  {
    var h := [Scored(0.2), Scored(0.4), Scored(0.6), Scored(0.8), Scored(1.0)];
    var xs := ScoreColumn(h);
    assert xs == [0.2, 0.4, 0.6, 0.8, 1.0];
    assert xs[..2][..1] == xs[..1] && xs[..3][..2] == xs[..2] && xs[..4][..3] == xs[..3];
    assert Sum(xs[..1]) == 0.2;
    assert Sum(xs[..2]) == 0.6;
    assert Sum(xs[..3]) == 1.2;
    assert Sum(xs[..4]) == 2.0;
    assert Sum(xs) == 3.0;
  }

  /** A summary carrying only a score. */
  function Scored(score: real): Scoring
  {
    ZeroScoring.(score := score)
  }
}
