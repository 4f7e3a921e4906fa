/** The per-session event handlers. Each is a pure transition of the session
    (and, for connect and disconnect, of the history store). A session marked
    `skip` at connect ignores every later event. The handlers that touch the
    current transaction index the last one, so they need one to exist unless
    the session is skipped. */
module Handlers {
  import opened Records
  import opened Scorer
  import opened Summary
  import opened History

  /** The session state together with the shared history store. */
  datatype Filter = Filter(session: SessionData, store: Store)

  /** What the connect handler produces: the session and, for a TCP peer, the
      prior trust of its address. */
  datatype Connected = Connected(session: SessionData, prior: Option<real>)

  /** Reverse DNS resolved unless the framework reports "<unknown>". */
  predicate RdnsResolved(rdns: string)
  {
    rdns != "<unknown>"
  }

  /** Forward-confirmed reverse DNS passed. */
  predicate FcrdnsPassed(fcrdns: string)
  {
    fcrdns == "ok" || fcrdns == "pass"
  }

  function LinkConnect(s: SessionData, store: Store, timestamp: int, rdns: string, fcrdns: string,
                       isTCP: bool, addr: string): (r: Connected)
    ensures !isTCP ==> r.session.skip && r.prior == None && r.session.(skip := s.skip) == s
    ensures isTCP ==> r.session.skip == s.skip && r.session.addr == addr && r.session.transactions == []
    ensures isTCP ==> r.session.connectTime == timestamp
    ensures isTCP ==> (r.session.rdns <==> rdns != "<unknown>")
    ensures isTCP ==> (r.session.fcrdns <==> fcrdns in {"ok", "pass"})
    ensures isTCP ==> r.session.(connectTime := s.connectTime, addr := s.addr, rdns := s.rdns,
                                 fcrdns := s.fcrdns, transactions := s.transactions) == s
    ensures isTCP ==> r.prior == Some(Prior(store, addr))
    ensures isTCP && (addr !in store || |store[addr]| < MinHistory) ==> r.prior == Some(0.5)
    ensures ScoresInUnit(store) && r.prior.Some? ==> 0.0 <= r.prior.value <= 1.0
  {
    if !isTCP then Connected(s.(skip := true), None)
    else
      var s' := s.(transactions := [], connectTime := timestamp, addr := addr,
                   rdns := RdnsResolved(rdns), fcrdns := FcrdnsPassed(fcrdns));
      Connected(s', Some(Prior(store, addr)))
  }

  /** Disconnect stamps the session and appends its summary, stamped `now`,
      to the history of its own address. */
  function LinkDisconnect(f: Filter, timestamp: int, now: int): (r: Filter)
    ensures f.session.skip ==> r == f
    ensures !f.session.skip ==> r.session == f.session.(disconnectTime := timestamp)
    ensures !f.session.skip ==> r.store.Keys == f.store.Keys + {f.session.addr}
    ensures !f.session.skip ==>
      r.store[f.session.addr] == HistoryOf(f.store, f.session.addr) + [SummarizeSession(f.session, now)]
    ensures forall k :: k in f.store && k != f.session.addr ==> k in r.store && r.store[k] == f.store[k]
    ensures Valid(f.store) ==> Valid(r.store)
    ensures ScoresInUnit(f.store) ==> ScoresInUnit(r.store)
  {
    if f.session.skip then f
    else
      var s := f.session.(disconnectTime := timestamp);
      assert SummarizeSession(s, now) == SummarizeSession(f.session, now);
      Filter(s, Record(f.store, s.addr, SummarizeSession(s, now)))
  }

  function LinkIdentify(s: SessionData, verb: string, hostname: string): (r: SessionData)
    ensures s.skip ==> r == s
    ensures !s.skip ==> (r.cmdHelo <==> s.cmdHelo || verb == "HELO")
    ensures !s.skip ==> (r.cmdEhlo <==> s.cmdEhlo || verb == "EHLO")
    ensures !s.skip ==> r.heloname == hostname
    ensures !s.skip ==> r.(cmdHelo := s.cmdHelo, cmdEhlo := s.cmdEhlo, heloname := s.heloname) == s
    ensures ScoreSession(r) == ScoreSession(s)
  {
    if s.skip then s
    else
      var s1 := if verb == "HELO" then s.(cmdHelo := true) else s;
      var s2 := if verb == "EHLO" then s1.(cmdEhlo := true) else s1;
      s2.(heloname := hostname)
  }

  /** An authentication attempt counts as a success exactly when the result
      is "ok"; any other result is a failure. */
  function LinkAuth(s: SessionData, result: string): (r: SessionData)
    ensures s.skip ==> r == s
    ensures !s.skip ==> r.cmdAuth && r.authok + r.authfail == s.authok + s.authfail + 1
    ensures !s.skip ==> (r.authok == s.authok + 1 <==> result == "ok")
    ensures !s.skip ==> (r.authfail == s.authfail + 1 <==> result != "ok")
    ensures !s.skip ==> r.(cmdAuth := s.cmdAuth, authok := s.authok, authfail := s.authfail) == s
    ensures result == "ok" ==> ScoreSession(s) <= ScoreSession(r)
    ensures result != "ok" ==> ScoreSession(r) <= ScoreSession(s)
  {
    if s.skip then s
    else if result == "ok" then
      var r := s.(cmdAuth := true, authok := s.authok + 1);
      ScoreSessionMonotone(r, s);
      r
    else
      var r := s.(cmdAuth := true, authfail := s.authfail + 1);
      ScoreSessionMonotone(s, r);
      r
  }

  function LinkTLS(s: SessionData, tlsString: string): (r: SessionData)
    ensures s.skip ==> r == s
    ensures !s.skip ==> r.cmdTLS && r.tlsString == tlsString
    ensures !s.skip ==> r.(cmdTLS := s.cmdTLS, tlsString := s.tlsString) == s
    ensures ScoreSession(s) <= ScoreSession(r)
  {
    if s.skip then s
    else
      var r := s.(cmdTLS := true, tlsString := tlsString);
      ScoreSessionMonotone(r, s);
      r
  }

  function TxReset(s: SessionData): (r: SessionData)
    ensures s.skip ==> r == s
    ensures !s.skip ==> r.nResets == s.nResets + 1 && r.(nResets := s.nResets) == s
    ensures ScoreSession(r) <= ScoreSession(s)
  {
    if s.skip then s
    else
      var r := s.(nResets := s.nResets + 1);
      ScoreSessionMonotone(s, r);
      r
  }

  function TxBegin(s: SessionData, timestamp: int): (r: SessionData)
    ensures s.skip ==> r == s
    ensures !s.skip ==> r.transactions == s.transactions + [NewTransaction(timestamp)]
    ensures !s.skip ==> r.(transactions := s.transactions) == s
  {
    if s.skip then s
    else s.(transactions := s.transactions + [NewTransaction(timestamp)])
  }

  /** The transaction the transaction-level events apply to. */
  function Current(s: SessionData): Transaction
    requires |s.transactions| > 0
  {
    s.transactions[|s.transactions| - 1]
  }

  /** `r` is `s` with only its last transaction possibly replaced. */
  predicate OnlyCurrentChanged(s: SessionData, r: SessionData)
  {
    && |s.transactions| > 0
    && |r.transactions| == |s.transactions|
    && r.transactions[..|s.transactions| - 1] == s.transactions[..|s.transactions| - 1]
    && r.(transactions := s.transactions) == s
  }

  function WithCurrent(s: SessionData, tx: Transaction): (r: SessionData)
    requires |s.transactions| > 0
    ensures OnlyCurrentChanged(s, r) && Current(r) == tx
  {
    s.(transactions := s.transactions[..|s.transactions| - 1] + [tx])
  }

  /** MAIL FROM marks the sender accepted when the result is "ok"; a later
      failed MAIL FROM does not unmark it. */
  function TxMail(s: SessionData, result: string): (r: SessionData)
    requires s.skip || |s.transactions| > 0
    ensures s.skip ==> r == s
    ensures !s.skip ==> OnlyCurrentChanged(s, r)
    ensures !s.skip ==> (Current(r).mailFromOK <==> Current(s).mailFromOK || result == "ok")
    ensures !s.skip ==> Current(r).(mailFromOK := Current(s).mailFromOK) == Current(s)
    ensures !s.skip ==> ScoreTransaction(Current(s)) <= ScoreTransaction(Current(r))
  {
    if s.skip then s
    else
      var tx := Current(s);
      var tx' := if result == "ok" then tx.(mailFromOK := true) else tx;
      ScoreTransactionMonotone(tx', tx);
      WithCurrent(s, tx')
  }

  /** RCPT TO bumps exactly the counter named by its result; any other result
      leaves the transaction alone. */
  function TxRcpt(s: SessionData, result: string): (r: SessionData)
    requires s.skip || |s.transactions| > 0
    ensures s.skip ==> r == s
    ensures !s.skip ==> OnlyCurrentChanged(s, r)
    ensures !s.skip ==> Current(r).rcptToOK == Current(s).rcptToOK + (if result == "ok" then 1 else 0)
    ensures !s.skip ==> Current(r).rcptToTempfail == Current(s).rcptToTempfail + (if result == "tempfail" then 1 else 0)
    ensures !s.skip ==> Current(r).rcptToPermfail == Current(s).rcptToPermfail + (if result == "permfail" then 1 else 0)
    ensures !s.skip ==> RecipientsOf(Current(r)) == RecipientsOf(Current(s)) + (if result in {"ok", "tempfail", "permfail"} then 1 else 0)
    ensures !s.skip ==> Current(r).(rcptToOK := 0, rcptToTempfail := 0, rcptToPermfail := 0)
                        == Current(s).(rcptToOK := 0, rcptToTempfail := 0, rcptToPermfail := 0)
    ensures !s.skip && result == "ok" ==> ScoreTransaction(Current(s)) <= ScoreTransaction(Current(r))
    ensures !s.skip && result != "ok" ==> ScoreTransaction(Current(r)) <= ScoreTransaction(Current(s))
  {
    if s.skip then s
    else
      var tx := Current(s);
      if result == "ok" then
        var tx' := tx.(rcptToOK := tx.rcptToOK + 1);
        ScoreTransactionMonotone(tx', tx);
        WithCurrent(s, tx')
      else
        var tx' :=
          if result == "tempfail" then tx.(rcptToTempfail := tx.rcptToTempfail + 1)
          else if result == "permfail" then tx.(rcptToPermfail := tx.rcptToPermfail + 1)
          else tx;
        ScoreTransactionMonotone(tx, tx');
        WithCurrent(s, tx')
  }

  /** DATA marks the data phase as seen whatever its result. */
  function TxData(s: SessionData, result: string): (r: SessionData)
    requires s.skip || |s.transactions| > 0
    ensures s.skip ==> r == s
    ensures !s.skip ==> OnlyCurrentChanged(s, r)
    ensures !s.skip ==> Current(r).sawData && Current(r).(sawData := Current(s).sawData) == Current(s)
    ensures !s.skip ==> ScoreTransaction(Current(s)) <= ScoreTransaction(Current(r))
  {
    if s.skip then s
    else
      var tx := Current(s);
      var tx' := tx.(sawData := true);
      ScoreTransactionMonotone(tx', tx);
      WithCurrent(s, tx')
  }

  function TxCommit(s: SessionData, timestamp: int): (r: SessionData)
    requires s.skip || |s.transactions| > 0
    ensures s.skip ==> r == s
    ensures !s.skip ==> OnlyCurrentChanged(s, r)
    ensures !s.skip ==> Current(r).committed && Current(r).endTime == timestamp
    ensures !s.skip ==> Current(r).(committed := Current(s).committed, endTime := Current(s).endTime) == Current(s)
    ensures !s.skip ==> ScoreTransaction(Current(s)) <= ScoreTransaction(Current(r))
  {
    if s.skip then s
    else
      var tx := Current(s);
      var tx' := tx.(endTime := timestamp, committed := true);
      ScoreTransactionMonotone(tx', tx);
      WithCurrent(s, tx')
  }

  /** Rollback only records the end time: it does not clear `committed`, so
      it never changes the transaction's score. */
  function TxRollback(s: SessionData, timestamp: int): (r: SessionData)
    requires s.skip || |s.transactions| > 0
    ensures s.skip ==> r == s
    ensures !s.skip ==> OnlyCurrentChanged(s, r)
    ensures !s.skip ==> Current(r).endTime == timestamp && Current(r).committed == Current(s).committed
    ensures !s.skip ==> Current(r).(endTime := Current(s).endTime) == Current(s)
    ensures !s.skip ==> ScoreTransaction(Current(r)) == ScoreTransaction(Current(s))
  {
    if s.skip then s
    else WithCurrent(s, Current(s).(endTime := timestamp))
  }

  /** The events the framework delivers for one session. Arguments no handler
      reads (message ids, user names, addresses of the envelope, message
      size) are omitted. */
  datatype Event =
    | Connect(timestamp: int, rdns: string, fcrdns: string, isTCP: bool, addr: string)
    | Disconnect(timestamp: int, now: int)
    | Identify(verb: string, hostname: string)
    | Auth(result: string)
    | Tls(tlsString: string)
    | Reset
    | Begin(timestamp: int)
    | Mail(result: string)
    | Rcpt(result: string)
    | Data(result: string)
    | Commit(timestamp: int)
    | Rollback(timestamp: int)

  /** Events that act on the current transaction. */
  predicate OnTransaction(e: Event)
  {
    e.Mail? || e.Rcpt? || e.Data? || e.Commit? || e.Rollback?
  }

  /** The event can be handled: a transaction event needs a transaction to
      act on unless the session is skipped. */
  predicate Enabled(s: SessionData, e: Event)
  {
    OnTransaction(e) ==> s.skip || |s.transactions| > 0
  }

  /** Delivers one event to its session's handler. */
  function Step(f: Filter, e: Event): (r: Filter)
    requires Enabled(f.session, e)
    ensures !e.Disconnect? ==> r.store == f.store
    ensures r.store.Keys <= f.store.Keys + {f.session.addr}
    ensures forall k :: k in f.store && k != f.session.addr ==> k in r.store && r.store[k] == f.store[k]
    ensures Valid(f.store) ==> Valid(r.store)
    ensures ScoresInUnit(f.store) ==> ScoresInUnit(r.store)
    ensures !e.Connect? ==> r.session.addr == f.session.addr && r.session.skip == f.session.skip
  {
    var s := f.session;
    match e
    case Connect(t, rdns, fcrdns, isTCP, addr) =>
      Filter(LinkConnect(s, f.store, t, rdns, fcrdns, isTCP, addr).session, f.store)
    case Disconnect(t, now) => LinkDisconnect(f, t, now)
    case Identify(m, h) => Filter(LinkIdentify(s, m, h), f.store)
    case Auth(result) => Filter(LinkAuth(s, result), f.store)
    case Tls(str) => Filter(LinkTLS(s, str), f.store)
    case Reset => Filter(TxReset(s), f.store)
    case Begin(t) => Filter(TxBegin(s, t), f.store)
    case Mail(result) => Filter(TxMail(s, result), f.store)
    case Rcpt(result) => Filter(TxRcpt(s, result), f.store)
    case Data(result) => Filter(TxData(s, result), f.store)
    case Commit(t) => Filter(TxCommit(s, t), f.store)
    case Rollback(t) => Filter(TxRollback(s, t), f.store)
  }

  /** Once a session is skipped, every handler other than connect leaves the
      session and the store exactly as they were. */
  lemma SkippedSessionIgnoresEvents(f: Filter, e: Event)
    requires f.session.skip && !e.Connect?
    ensures Enabled(f.session, e)
    ensures Step(f, e) == f
  {
  }

  /** A non-TCP peer is skipped from its connect event on. */
  lemma NonTcpPeerIsSkipped(f: Filter, t: int, rdns: string, fcrdns: string, addr: string, e: Event)
    requires !e.Connect?
    ensures Step(f, Connect(t, rdns, fcrdns, false, addr)).session.skip
    ensures Step(Step(f, Connect(t, rdns, fcrdns, false, addr)), e) == Step(f, Connect(t, rdns, fcrdns, false, addr))
  {
    SkippedSessionIgnoresEvents(Step(f, Connect(t, rdns, fcrdns, false, addr)), e);
  }

  /** Apart from connect, no event removes or reorders transactions: only
      transaction begin adds one, and only the last one is ever modified. */
  lemma TransactionsOnlyGrow(f: Filter, e: Event)
    requires Enabled(f.session, e) && !e.Connect?
    ensures |Step(f, e).session.transactions| >= |f.session.transactions|
    ensures forall i :: 0 <= i < |f.session.transactions| - 1 ==>
      Step(f, e).session.transactions[i] == f.session.transactions[i]
    ensures e.Begin? && !f.session.skip ==> |Step(f, e).session.transactions| == |f.session.transactions| + 1
    ensures !e.Begin? ==> |Step(f, e).session.transactions| == |f.session.transactions|
  {
    var s := f.session;
    var r := Step(f, e).session;
    if OnTransaction(e) && !s.skip {
      assert OnlyCurrentChanged(s, r);
      forall i | 0 <= i < |s.transactions| - 1
        ensures r.transactions[i] == s.transactions[i]
      {
        assert r.transactions[..|s.transactions| - 1][i] == s.transactions[..|s.transactions| - 1][i];
      }
    }
  }
}
