/**
 * ASSUMPTIONS. The four stored procedures `reserve_user_credits`, `reserve_demo_credits`,
 * `commit_ledger_request` and `rollback_ledger_request` are called by name from
 * `_shared/pricing.ts` but their bodies are not part of this model. The transitions below are
 * the behaviour the metering protocol is designed around, written down as assumptions; nothing
 * here is taken from their code, and every property proved about the handlers holds relative to
 * these definitions.
 *
 * Assumed, in words:
 * - reserve on a request id whose entry exists and is not rolled back succeeds and changes
 *   nothing (a retry is never charged twice);
 * - otherwise reserve charges the owner when the balance covers the price, writing a pending
 *   entry, and fails with `INSUFFICIENT_CREDITS` changing nothing;
 * - a demo reservation first gets, creates or resets the device's session exactly as
 *   `getOrCreateDemoSession` does; a demo image takes one image of quota and no credits, and
 *   fails with `INSUFFICIENT_IMAGE_QUOTA` when none is left;
 * - commit turns a pending entry into a committed one with its usage and answers `true`; on any
 *   other entry, or none, it changes nothing and answers `false`;
 * - rollback turns a pending entry into a rolled-back one and gives the reserved credits and
 *   images back to the owner; otherwise it changes nothing;
 * - a call that reports an error has changed nothing.
 */
module Procedures {
  import opened Outcome
  import opened Types
  import opened Store

  /** The row `reserve_user_credits` answers (`ledger_id` is never read and is left out). */
  datatype UserReserveRow = UserReserveRow(success: bool, errorCode: Option<string>, balance: int)

  /** The row `reserve_demo_credits` answers. */
  datatype DemoReserveRow = DemoReserveRow(
    success: bool, errorCode: Option<string>, creditsRemaining: int, imagesRemaining: int,
    demoSessionId: Option<nat>)

  const INSUFFICIENT_CREDITS: string := "INSUFFICIENT_CREDITS"
  const INSUFFICIENT_IMAGE_QUOTA: string := "INSUFFICIENT_IMAGE_QUOTA"

  function NewEntry(owner: Owner, op: Operation, mode: ChatMode, model: string, tier: ModelTier,
                    credits: nat, images: nat, now: int): (e: LedgerEntry)
    ensures e.status == Pending && e.owner == owner && e.credits == credits && e.images == images
  {
    LedgerEntry(owner, op, mode, model, tier, credits, images, Pending, now, NO_USAGE)
  }

  /** Every ledger entry other than `requestId`'s is the same in both states. */
  predicate OtherEntriesKept(t: Tables, t2: Tables, requestId: string) {
    && (forall k :: k in t.ledger && k != requestId ==> k in t2.ledger && t2.ledger[k] == t.ledger[k])
    && (forall k :: k in t2.ledger && k != requestId ==> k in t.ledger)
  }

  /** Assumed `reserve_user_credits`: it touches only the user's wallet and the request's entry. */
  function ReserveUser(t: Tables, userId: string, requestId: string, op: Operation, mode: ChatMode,
                       model: string, tier: ModelTier, credits: nat, now: int): (r: (Tables, UserReserveRow))
    ensures OtherEntriesKept(t, r.0, requestId) && r.0.sessions == t.sessions
    ensures forall u :: u != userId ==> Balance(r.0, u) == Balance(t, u)
  {
    var balance := Balance(t, userId);
    if Live(t, requestId) then
      (t, UserReserveRow(true, None, balance))
    else if balance >= credits then
      var entry := NewEntry(UserOwner(userId), op, mode, model, tier, credits, 0, now);
      (t.(wallets := t.wallets[userId := balance - credits], ledger := t.ledger[requestId := entry]),
       UserReserveRow(true, None, balance - credits))
    else
      (t, UserReserveRow(false, Some(INSUFFICIENT_CREDITS), balance))
  }

  /** Assumed `reserve_demo_credits`. */
  function ReserveDemo(t: Tables, fingerprint: string, requestId: string, op: Operation, mode: ChatMode,
                       model: string, tier: ModelTier, credits: nat, isImage: bool, now: int)
    : (r: (Tables, DemoReserveRow))
    ensures OtherEntriesKept(t, r.0, requestId) && r.0.wallets == t.wallets
    ensures forall f :: f in t.sessions && f != fingerprint ==> f in r.0.sessions && r.0.sessions[f] == t.sessions[f]
    ensures forall f :: f in r.0.sessions && f != fingerprint ==> f in t.sessions
  {
    var (t1, s) := FetchSession(t, fingerprint, now);
    if Live(t1, requestId) then
      (t1, DemoReserveRow(true, None, s.creditsRemaining, s.imagesRemaining, Some(s.id)))
    else if isImage then
      if s.imagesRemaining >= 1 then
        var s2 := s.(imagesRemaining := s.imagesRemaining - 1);
        var entry := NewEntry(DemoOwner(s.id, fingerprint), op, mode, model, tier, 0, 1, now);
        (t1.(sessions := t1.sessions[fingerprint := s2], ledger := t1.ledger[requestId := entry]),
         DemoReserveRow(true, None, s2.creditsRemaining, s2.imagesRemaining, Some(s.id)))
      else
        (t1, DemoReserveRow(false, Some(INSUFFICIENT_IMAGE_QUOTA), s.creditsRemaining, s.imagesRemaining, Some(s.id)))
    else if s.creditsRemaining >= credits then
      var s2 := s.(creditsRemaining := s.creditsRemaining - credits);
      var entry := NewEntry(DemoOwner(s.id, fingerprint), op, mode, model, tier, credits, 0, now);
      (t1.(sessions := t1.sessions[fingerprint := s2], ledger := t1.ledger[requestId := entry]),
       DemoReserveRow(true, None, s2.creditsRemaining, s2.imagesRemaining, Some(s.id)))
    else
      (t1, DemoReserveRow(false, Some(INSUFFICIENT_CREDITS), s.creditsRemaining, s.imagesRemaining, Some(s.id)))
  }

  /** Assumed `commit_ledger_request`; the boolean is the procedure's answer. */
  function Commit(t: Tables, requestId: string, usage: Usage): (r: (Tables, bool))
    ensures OtherEntriesKept(t, r.0, requestId) && r.0.wallets == t.wallets && r.0.sessions == t.sessions
    ensures r.1 ==> requestId in r.0.ledger && r.0.ledger[requestId].status == Committed && r.0.ledger[requestId].usage == usage
  {
    if requestId in t.ledger && t.ledger[requestId].status == Pending then
      (t.(ledger := t.ledger[requestId := t.ledger[requestId].(status := Committed, usage := usage)]), true)
    else
      (t, false)
  }

  /** The owner's wallet with an entry's reservation given back. */
  function Refund(t: Tables, e: LedgerEntry): Tables {
    match e.owner
    case UserOwner(u) => t.(wallets := t.wallets[u := Balance(t, u) + e.credits])
    case DemoOwner(id, fp) =>
      if fp in t.sessions && t.sessions[fp].id == id then
        var s := t.sessions[fp];
        t.(sessions := t.sessions[fp := s.(creditsRemaining := s.creditsRemaining + e.credits,
                                             imagesRemaining := s.imagesRemaining + e.images)])
      else t
  }

  /** Assumed `rollback_ledger_request` (the reason is recorded by the caller's log only). */
  function Rollback(t: Tables, requestId: string): (r: Tables)
    ensures OtherEntriesKept(t, r, requestId)
    ensures requestId in t.ledger ==> requestId in r.ledger && r.ledger[requestId].status != Pending
                                      && r.ledger[requestId].usage == t.ledger[requestId].usage
    ensures requestId !in t.ledger ==> r == t
  {
    if requestId in t.ledger && t.ledger[requestId].status == Pending then
      var e := t.ledger[requestId];
      Refund(t.(ledger := t.ledger[requestId := e.(status := RolledBack)]), e)
    else
      t
  }

  // ---- consequences of the assumptions ----

  /**
   * A user reservation either succeeds, leaving a live entry, or fails with the credits code
   * because the balance is short; a failed one changes nothing.
   */
  lemma ReserveUserOutcome(t: Tables, userId: string, requestId: string, op: Operation, mode: ChatMode,
                           model: string, tier: ModelTier, credits: nat, now: int)
    ensures var (t2, row) := ReserveUser(t, userId, requestId, op, mode, model, tier, credits, now);
            && (row.success <==> Live(t, requestId) || Balance(t, userId) >= credits)
            && (row.success ==> Live(t2, requestId) && row.errorCode.None?)
            && (!row.success ==> t2 == t && row.errorCode == Some(INSUFFICIENT_CREDITS))
            && row.balance == Balance(t2, userId)
            && (Live(t, requestId) ==> t2 == t)
  {
  }

  /** Retrying a reservation whose entry stands (pending or committed) charges nothing. */
  lemma NoDoubleCharge(t: Tables, userId: string, requestId: string, op: Operation, mode: ChatMode,
                       model: string, tier: ModelTier, credits: nat, now: int, usage: Usage)
    ensures var (t1, row1) := ReserveUser(t, userId, requestId, op, mode, model, tier, credits, now);
            var t2 := Commit(t1, requestId, usage).0;
            row1.success ==>
              && ReserveUser(t1, userId, requestId, op, mode, model, tier, credits, now).0 == t1
              && ReserveUser(t2, userId, requestId, op, mode, model, tier, credits, now).0 == t2
  {
  }

  /**
   * Refund on failure: from a state with nothing pending, a fresh reservation rolled back restores
   * every wallet and leaves nothing pending (10 credits, price 5: 5 after the reservation, 10 after
   * the rollback).
   */
  lemma {:induction false} RollbackRestoresUser(t: Tables, userId: string, requestId: string, op: Operation,
                                                mode: ChatMode, model: string, tier: ModelTier, credits: nat, now: int)
    requires NoPending(t)
    ensures var t1 := ReserveUser(t, userId, requestId, op, mode, model, tier, credits, now).0;
            var t2 := Rollback(t1, requestId);
            SameBalances(t2, t) && t2.sessions == t.sessions && NoPending(t2)
  {
    var t1 := ReserveUser(t, userId, requestId, op, mode, model, tier, credits, now).0;
    if !Live(t, requestId) && Balance(t, userId) >= credits {
      var e := t1.ledger[requestId];
      assert e.owner == UserOwner(userId) && e.credits == credits;
      var t2 := Rollback(t1, requestId);
      assert t2.wallets == t.wallets[userId := Balance(t, userId)];
    }
  }

  /** The balance scenario: 10 credits, price 5, the generation fails and is rolled back. */
  lemma RefundScenario(userId: string, requestId: string, now: int)
    ensures var t := Tables(map[userId := 10], map[], map[], 0);
            var (t1, row) := ReserveUser(t, userId, requestId, ChatOp, Mentor, "m", Stable, 5, now);
            && row.success && row.balance == 5 && Balance(t1, userId) == 5
            && Balance(Rollback(t1, requestId), userId) == 10
  {
  }

  /** A key retried after a rollback is charged again (the attempt re-executes). */
  lemma RetryAfterRollbackCharges(t: Tables, userId: string, requestId: string, op: Operation, mode: ChatMode,
                                  model: string, tier: ModelTier, credits: nat, now: int)
    requires requestId in t.ledger && t.ledger[requestId].status == RolledBack
    requires Balance(t, userId) >= credits
    ensures var (t2, row) := ReserveUser(t, userId, requestId, op, mode, model, tier, credits, now);
            row.success && Balance(t2, userId) == Balance(t, userId) - credits
            && t2.ledger[requestId].status == Pending
  {
  }

  /** Once an entry is committed or rolled back, neither commit nor rollback changes anything. */
  lemma TerminalIsFinal(t: Tables, requestId: string, usage: Usage)
    requires requestId in t.ledger && t.ledger[requestId].status != Pending
    ensures Commit(t, requestId, usage) == (t, false)
    ensures Rollback(t, requestId) == t
  {
  }

  /** Commit answers `true` exactly on a pending entry. */
  lemma CommitAnswer(t: Tables, requestId: string, usage: Usage)
    ensures Commit(t, requestId, usage).1 <==> requestId in t.ledger && t.ledger[requestId].status == Pending
    ensures Commit(t, requestId, usage).0.wallets == t.wallets
  {
  }

  /** Settling the only pending entry, by commit or by rollback, leaves nothing pending. */
  lemma SettleClearsPending(t: Tables, requestId: string, usage: Usage)
    requires PendingAtMost(t, requestId)
    ensures NoPending(Rollback(t, requestId))
    ensures NoPending(Rollback(Commit(t, requestId, usage).0, requestId))
    ensures Commit(t, requestId, usage).1 ==> NoPending(Commit(t, requestId, usage).0)
  {
  }

  /** A reservation from a state with nothing pending leaves at most its own entry pending. */
  lemma ReservePendsOnlyItself(t: Tables, userId: string, fingerprint: string, requestId: string, op: Operation,
                               mode: ChatMode, model: string, tier: ModelTier, credits: nat, isImage: bool, now: int)
    requires NoPending(t)
    ensures PendingAtMost(ReserveUser(t, userId, requestId, op, mode, model, tier, credits, now).0, requestId)
    ensures PendingAtMost(ReserveDemo(t, fingerprint, requestId, op, mode, model, tier, credits, isImage, now).0, requestId)
  {
  }

  /** Demo reservations never touch user wallets. */
  lemma DemoLeavesWallets(t: Tables, fingerprint: string, requestId: string, op: Operation, mode: ChatMode,
                          model: string, tier: ModelTier, credits: nat, isImage: bool, now: int)
    ensures ReserveDemo(t, fingerprint, requestId, op, mode, model, tier, credits, isImage, now).0.wallets == t.wallets
  {
  }

  /**
   * A demo reservation rolled back gives the session back what it took: the session is the one the
   * reservation fetched (created or reset as needed), with its credits and images as fetched.
   */
  lemma {:induction false} RollbackRestoresDemo(t: Tables, fingerprint: string, requestId: string, op: Operation,
                                                mode: ChatMode, model: string, tier: ModelTier, credits: nat,
                                                isImage: bool, now: int)
    requires NoPending(t)
    ensures var fetched := FetchSession(t, fingerprint, now);
            var t1 := ReserveDemo(t, fingerprint, requestId, op, mode, model, tier, credits, isImage, now).0;
            var t2 := Rollback(t1, requestId);
            fingerprint in t2.sessions && t2.sessions[fingerprint] == fetched.1 && NoPending(t2)
            && t2.wallets == t.wallets
  {
    var (t1f, s) := FetchSession(t, fingerprint, now);
    var t1 := ReserveDemo(t, fingerprint, requestId, op, mode, model, tier, credits, isImage, now).0;
    if !Live(t1f, requestId) && ((isImage && s.imagesRemaining >= 1) || (!isImage && s.creditsRemaining >= credits)) {
      var e := t1.ledger[requestId];
      assert e.owner == DemoOwner(s.id, fingerprint);
      assert t1.sessions[fingerprint].id == s.id;
    }
  }

  /**
   * The demo image scenario: a session with one image left reserves one image, its quota drops to 0,
   * and the next image reservation under another request id fails with the quota code.
   */
  lemma DemoImageQuotaScenario(t: Tables, fingerprint: string, rid1: string, rid2: string, now: int)
    requires fingerprint in t.sessions && t.sessions[fingerprint].expiresAt > now
    requires t.sessions[fingerprint].imagesRemaining == 1
    requires rid1 !in t.ledger && rid2 !in t.ledger && rid1 != rid2
    ensures var (t1, row1) := ReserveDemo(t, fingerprint, rid1, ImageOp, Visionary, "m", Standard, 3, true, now);
            var (t2, row2) := ReserveDemo(t1, fingerprint, rid2, ImageOp, Visionary, "m", Standard, 3, true, now);
            && row1.success && row1.imagesRemaining == 0
            && row1.creditsRemaining == t.sessions[fingerprint].creditsRemaining
            && !row2.success && row2.errorCode == Some(INSUFFICIENT_IMAGE_QUOTA) && t2 == t1
  {
  }

  /**
   * Reservations and rollbacks do not move any committed count; a commit of a pending entry moves
   * exactly the counts that match it, by one.
   */
  lemma CountsMoveOnlyOnCommit(t: Tables, requestId: string, usage: Usage, who: Scope, op: Operation, since: int)
    requires requestId in t.ledger && t.ledger[requestId].status == Pending
    ensures var e := t.ledger[requestId];
            var t2 := Commit(t, requestId, usage).0;
            CountCommitted(t2.ledger, who, op, since)
            == CountCommitted(t.ledger, who, op, since)
               + (if OwnedBy(e.owner, who) && e.operation == op && e.createdAt >= since then 1 else 0)
    ensures CountCommitted(Rollback(t, requestId).ledger, who, op, since) == CountCommitted(t.ledger, who, op, since)
  {
    var e := t.ledger[requestId];
    CountAfterUpdate(t.ledger, requestId, e.(status := Committed, usage := usage), who, op, since);
    CountAfterUpdate(t.ledger, requestId, e.(status := RolledBack), who, op, since);
    assert Rollback(t, requestId).ledger == t.ledger[requestId := e.(status := RolledBack)] by {
      match e.owner
      case UserOwner(_) =>
      case DemoOwner(_, _) =>
    }
  }

  lemma ReserveLeavesCounts(t: Tables, userId: string, requestId: string, op: Operation, mode: ChatMode,
                            model: string, tier: ModelTier, credits: nat, now: int, who: Scope, op2: Operation, since: int)
    ensures CountCommitted(ReserveUser(t, userId, requestId, op, mode, model, tier, credits, now).0.ledger, who, op2, since)
            == CountCommitted(t.ledger, who, op2, since)
  {
    if !Live(t, requestId) && Balance(t, userId) >= credits {
      CountUnchanged(t.ledger, requestId, NewEntry(UserOwner(userId), op, mode, model, tier, credits, 0, now), who, op2, since);
    }
  }
}
