/** The filter's records: one SMTP transaction, one session's state and the
    summary of a finished session kept in the reputation history.
    Timestamps are whole seconds; the zero time is 0. */
module Records {

  datatype Option<T> = None | Some(value: T)

  /** One envelope attempt (MAIL FROM, RCPT TO..., DATA, commit or rollback). */
  datatype Transaction = Transaction(
    beginTime: int,
    endTime: int,
    mailFromOK: bool,
    rcptToOK: nat,
    rcptToTempfail: nat,
    rcptToPermfail: nat,
    sawData: bool,
    committed: bool)

  /** The transaction appended at transaction begin: only its start time is set. */
  function NewTransaction(beginTime: int): (tx: Transaction)
    ensures tx.beginTime == beginTime && tx.endTime == 0
    ensures !tx.mailFromOK && !tx.sawData && !tx.committed
    ensures tx.rcptToOK == 0 && tx.rcptToTempfail == 0 && tx.rcptToPermfail == 0
  {
    Transaction(beginTime, 0, false, 0, 0, 0, false, false)
  }

  /** State of one inbound SMTP connection, from connect to disconnect. */
  datatype SessionData = SessionData(
    skip: bool,
    connectTime: int,
    disconnectTime: int,
    addr: string,
    rdns: bool,
    fcrdns: bool,
    cmdHelo: bool,
    cmdEhlo: bool,
    heloname: string,
    cmdAuth: bool,
    authok: nat,
    authfail: nat,
    cmdTLS: bool,
    tlsString: string,
    nResets: nat,
    transactions: seq<Transaction>)

  /** The session the framework allocates before any event: every field zero. */
  function NewSession(): (s: SessionData)
    ensures !s.skip && !s.rdns && !s.fcrdns && !s.cmdTLS
    ensures s.authok == 0 && s.authfail == 0 && s.nResets == 0
    ensures s.transactions == []
  {
    SessionData(false, 0, 0, "", false, false, false, false, "", false, 0, 0, false, "", 0, [])
  }

  /** Summary of one finished session, as stored in an address's history. */
  datatype Scoring = Scoring(
    timestamp: int,
    score: real,
    authFailures: nat,
    authSuccesses: nat,
    resets: nat,
    rcptCount: nat,
    dataCount: nat,
    commitCount: nat,
    rollbackCount: nat)

  /** The zero value of a summary. */
  const ZeroScoring := Scoring(0, 0.0, 0, 0, 0, 0, 0, 0, 0)
}
