/**
 * The database state behind `_shared/pricing.ts`: credit wallets, the credit ledger keyed by request
 * id, and demo sessions keyed by device fingerprint, with the parts of it the TypeScript code reads
 * and writes itself (wallet balance lookup, windowed counts of committed entries, and the
 * get-or-create-or-reset of demo sessions). Timestamps are milliseconds since 1970-01-01 UTC.
 */
module Store {
  import opened Outcome
  import opened Types

  /** Whose credits a ledger entry spends: a user's wallet, or a demo session's embedded wallet. */
  datatype Owner = UserOwner(userId: string) | DemoOwner(sessionId: nat, fingerprint: string)

  datatype Status = Pending | Committed | RolledBack

  /** The usage figures attached by `commit_ledger_request`. */
  datatype Usage = Usage(tokensIn: int, tokensOut: int, groundedQueries: int, imageCount: int)

  const NO_USAGE: Usage := Usage(0, 0, 0, 0)

  /**
   * A `credit_ledger` row. `credits` and `images` are what the reservation took from the owner's
   * wallet and what a rollback gives back.
   */
  datatype LedgerEntry = LedgerEntry(
    owner: Owner, operation: Operation, mode: ChatMode, model: string, tier: ModelTier,
    credits: nat, images: nat, status: Status, createdAt: int, usage: Usage)

  /** A `demo_sessions` row. The database's uuid id is a number drawn from a counter here. */
  datatype DemoSession = DemoSession(id: nat, creditsRemaining: int, imagesRemaining: int, expiresAt: int)

  datatype Tables = Tables(
    wallets: map<string, int>,
    ledger: map<string, LedgerEntry>,
    sessions: map<string, DemoSession>,
    nextSessionId: nat)

  const DAY_MS: nat := 86400000
  const DEMO_CREDITS: int := 15
  const DEMO_IMAGES: int := 1
  const DEMO_SESSION_MS: nat := 14 * DAY_MS

  /** `getUserCreditsBalance`: the wallet balance, or 0 when the user has no wallet. */
  function Balance(t: Tables, userId: string): (b: int)
    ensures userId !in t.wallets ==> b == 0
    ensures userId in t.wallets ==> b == t.wallets[userId]
  {
    if userId in t.wallets then t.wallets[userId] else 0
  }

  /** Every user has the same balance in both states (a wallet of 0 and no wallet agree). */
  ghost predicate SameBalances(t1: Tables, t2: Tables) {
    forall u :: Balance(t1, u) == Balance(t2, u)
  }

  /** A reservation that is not rolled back stands for its request id. */
  predicate Live(t: Tables, requestId: string) {
    requestId in t.ledger && t.ledger[requestId].status != RolledBack
  }

  predicate NoPending(t: Tables) {
    forall k :: k in t.ledger ==> t.ledger[k].status != Pending
  }

  /** At most the entry of `requestId` is pending. */
  predicate PendingAtMost(t: Tables, requestId: string) {
    forall k :: k in t.ledger && k != requestId ==> t.ledger[k].status != Pending
  }

  // ---- windowed usage counts (getWeeklyImageUsage, getDailyChatUsageForUser/ForDemo) ----

  /** The owner filter of a usage query: `.eq('user_id', ...)` or `.eq('demo_session_id', ...)`. */
  datatype Scope = ByUser(userId: string) | BySession(sessionId: nat)

  predicate OwnedBy(o: Owner, who: Scope) {
    match who
    case ByUser(u) => o == UserOwner(u)
    case BySession(id) => o.DemoOwner? && o.sessionId == id
  }

  /** The filters of the usage queries: status committed, owner, operation, `created_at >= since`. */
  predicate Counted(e: LedgerEntry, who: Scope, op: Operation, since: int) {
    e.status == Committed && OwnedBy(e.owner, who) && e.operation == op && e.createdAt >= since
  }

  function CountedIds(ledger: map<string, LedgerEntry>, who: Scope, op: Operation, since: int): (ids: set<string>)
    ensures forall k :: k in ids <==> k in ledger && Counted(ledger[k], who, op, since)
  {
    set k | k in ledger && Counted(ledger[k], who, op, since)
  }

  /** The exact count of matching entries (`count ?? 0`). */
  function CountCommitted(ledger: map<string, LedgerEntry>, who: Scope, op: Operation, since: int): (n: nat)
    ensures n == 0 <==> forall k :: k in ledger ==> !Counted(ledger[k], who, op, since)
  {
    var ids := CountedIds(ledger, who, op, since);
    assert ids != {} ==> exists k :: k in ids;
    |ids|
  }

  /** Changing one entry moves the count by at most the change in that entry's own membership. */
  lemma {:induction false} CountAfterUpdate(ledger: map<string, LedgerEntry>, k: string, e: LedgerEntry,
                                            who: Scope, op: Operation, since: int)
    ensures var before := if k in ledger && Counted(ledger[k], who, op, since) then 1 else 0;
            var after := if Counted(e, who, op, since) then 1 else 0;
            CountCommitted(ledger[k := e], who, op, since) + before == CountCommitted(ledger, who, op, since) + after
  {
    var oldIds := CountedIds(ledger, who, op, since);
    var newIds := CountedIds(ledger[k := e], who, op, since);
    assert forall x :: x in newIds - {k} <==> x in oldIds - {k};
    assert newIds - {k} == oldIds - {k};
    RemoveOne(oldIds, k);
    RemoveOne(newIds, k);
  }

  /** Taking one element out of a set lowers its size by one exactly when it was there. */
  lemma RemoveOne<T>(s: set<T>, k: T)
    ensures |s| == |s - {k}| + (if k in s then 1 else 0)
  {
    if k in s {
      assert s == (s - {k}) + {k};
    } else {
      assert s - {k} == s;
    }
  }

  /** An entry that is not counted before or after an update leaves the count unchanged. */
  lemma CountUnchanged(ledger: map<string, LedgerEntry>, k: string, e: LedgerEntry,
                       who: Scope, op: Operation, since: int)
    requires k in ledger ==> !Counted(ledger[k], who, op, since)
    requires !Counted(e, who, op, since)
    ensures CountCommitted(ledger[k := e], who, op, since) == CountCommitted(ledger, who, op, since)
  {
    CountAfterUpdate(ledger, k, e, who, op, since);
  }

  // ---- demo sessions (getOrCreateDemoSession) ----

  /** A session in its reset state at time `now`: 15 credits, 1 image, expiring 14 days later. */
  function FullSession(id: nat, now: int): (s: DemoSession)
    ensures s.id == id && s.expiresAt > now
  {
    DemoSession(id, DEMO_CREDITS, DEMO_IMAGES, now + DEMO_SESSION_MS)
  }

  /**
   * The session `getOrCreateDemoSession` returns for `fingerprint` at time `now`, and the table
   * after it: created when absent, reset when `expires_at <= now`, otherwise as stored.
   * The values a freshly inserted row takes from the table's defaults are assumed to be the reset
   * values.
   */
  function FetchSession(t: Tables, fingerprint: string, now: int): (r: (Tables, DemoSession))
    ensures r.0.wallets == t.wallets && r.0.ledger == t.ledger
    ensures fingerprint in r.0.sessions && r.0.sessions[fingerprint] == r.1
    ensures r.1.expiresAt > now
  {
    if fingerprint !in t.sessions then
      var s := FullSession(t.nextSessionId, now);
      (t.(sessions := t.sessions[fingerprint := s], nextSessionId := t.nextSessionId + 1), s)
    else if t.sessions[fingerprint].expiresAt <= now then
      var s := FullSession(t.sessions[fingerprint].id, now);
      (t.(sessions := t.sessions[fingerprint := s]), s)
    else
      (t, t.sessions[fingerprint])
  }

  /** The three cases of `getOrCreateDemoSession`, stated against the table before the call. */
  lemma FetchSessionCases(t: Tables, fingerprint: string, now: int)
    ensures var (t2, s) := FetchSession(t, fingerprint, now);
            && (fingerprint !in t.sessions ==>
                  s == DemoSession(t.nextSessionId, 15, 1, now + 14 * DAY_MS)
                  && t2.nextSessionId == t.nextSessionId + 1)
            && (fingerprint in t.sessions && t.sessions[fingerprint].expiresAt <= now ==>
                  s == DemoSession(t.sessions[fingerprint].id, 15, 1, now + 14 * DAY_MS) && t2.nextSessionId == t.nextSessionId)
            && (fingerprint in t.sessions && t.sessions[fingerprint].expiresAt > now ==>
                  t2 == t && s == t.sessions[fingerprint])
            && (forall f :: f in t.sessions && f != fingerprint ==> f in t2.sessions && t2.sessions[f] == t.sessions[f])
  {
  }

  /** Fetching a second time at the same instant changes nothing and returns the same session. */
  lemma FetchSessionStable(t: Tables, fingerprint: string, now: int)
    ensures var (t2, s) := FetchSession(t, fingerprint, now);
            FetchSession(t2, fingerprint, now) == (t2, s)
  {
  }
}
