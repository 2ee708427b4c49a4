/** Whom the eligibility job rewards, and what the other operations on referrals leave, written out without the
    functions that compute it (referrals.service.ts). */
module ReferralOutcomes {
  import opened Wrappers
  import opened BillingModel

  // ---------------------------------------------------------------- the job

  /** The referral waits and its waiting period is over. */
  predicate IsDue(r: Referral, now: int) {
    r.status == PENDING_WAITING_PERIOD && r.eligibleAt.Some? && r.eligibleAt.value <= now
  }

  /** The referred user is still an active, paying one. */
  predicate IsSubscriber(user: User) {
    user.isActive && user.status == ACTIVE
  }

  /** Another referral due at the selection is of a user with the document. Whether that user is a subscriber does
      not matter. */
  ghost predicate DueElsewhere(seen: Database, u: nat, now: int, document: Option<string>) {
    exists v | v in seen.referrals && v != u && v < |seen.users| ::
      IsDue(seen.referrals[v], now) && seen.users[v].cpfHash == document
  }

  /** By now another referral of a user with the document is rewarded. */
  ghost predicate RewardedElsewhere(live: Database, u: nat, document: Option<string>) {
    exists v | v in live.referrals && v != u && v < |live.users| ::
      live.referrals[v].status in {ELIGIBLE, PAID} && live.users[v].cpfHash == document
  }

  /** Why the job objects to a due referral, the first reason counting: all is as `seen` at the selection, but for the
      rewarded referrals, which are `live`. */
  ghost function Objection(seen: Database, live: Database, u: nat, now: int): Option<AntifraudReason>
    requires u in seen.referrals && u < |seen.users|
  {
    var r, user := seen.referrals[u], seen.users[u];
    if r.paymentConfirmedAt == None then Some(MISSING_PAYMENT_CONFIRMATION)
    else if user.referredBy == None then Some(MISSING_REFERRER_LINK)
    else if u in {r.referrer, user.referredBy.value} then Some(SELF_REFERRAL)
    else if user.referredBy != Some(r.referrer) then Some(REFERRER_LINK_MISMATCH)
    else if user.cpfHash == None then Some(MISSING_CPF_CNPJ_HASH)
    else if DueElsewhere(seen, u, now, user.cpfHash) || RewardedElsewhere(live, u, user.cpfHash)
    then Some(DUPLICATE_CPF_CNPJ)
    else None
  }

  /** The check of a due referral finds exactly its objection. */
  lemma VerdictIsObjection(seen: Database, live: Database, now: int, u: nat)
    requires u in seen.referrals && u < |seen.users| && IsDue(seen.referrals[u], now)
    ensures Verdict(seen, live, Candidates(seen, now), u) == Objection(seen, live, u, now)
  {
    var document := seen.users[u].cpfHash;
    if document.Some? {
      if HashShared(seen, Candidates(seen, now), u, document.value) {
        var v :| v in Candidates(seen, now) && v != u && seen.users[v].cpfHash == document;
        assert IsDue(seen.referrals[v], now);
      }
      if DueElsewhere(seen, u, now, document) {
        var v :| v in seen.referrals && v != u && v < |seen.users| && IsDue(seen.referrals[v], now)
          && seen.users[v].cpfHash == document;
        assert v in Candidates(seen, now);
      }
      if HashRewarded(live, u, document.value) {
        var v :| v in live.referrals && v != u && v < |live.users| && IsRewarded(live.referrals[v].status)
          && live.users[v].cpfHash == document;
        assert live.referrals[v].status in {ELIGIBLE, PAID};
      }
    }
  }

  /** The job judges exactly the due referrals of subscribers: without an objection the referral is ELIGIBLE, otherwise
      in review for that reason. It changes nothing else. */
  lemma JobRewardsSubscribers(db: Database, now: int, u: nat)
    requires ForeignKeys(db) && u in db.referrals
    ensures u < |db.users|
    ensures EligibleProcessed(db, now) == db.(referrals := EligibleProcessed(db, now).referrals)
    ensures EligibleProcessed(db, now).referrals.Keys == db.referrals.Keys
    ensures var r, objection := db.referrals[u], Objection(db, db, u, now);
            EligibleProcessed(db, now).referrals[u]
            == if !IsDue(r, now) || !IsSubscriber(db.users[u]) then r
               else if objection == None then r.(status := ELIGIBLE, antifraudReason := None)
               else r.(status := NEEDS_REVIEW, antifraudReason := objection)
  {
    if IsDue(db.referrals[u], now) { VerdictIsObjection(db, db, now, u); }
  }

  /** Whatever the job changes belongs to a subscriber, and was due. */
  lemma JobChangesOnlySubscribers(db: Database, now: int, u: nat)
    requires ForeignKeys(db) && u in db.referrals
    requires u in EligibleProcessed(db, now).referrals && EligibleProcessed(db, now).referrals[u] != db.referrals[u]
    ensures u < |db.users| && db.users[u].isActive && db.users[u].status == ACTIVE
    ensures db.referrals[u].eligibleAt.Some? && db.referrals[u].eligibleAt.value <= now
  {
    JobRewardsSubscribers(db, now, u);
  }

  // ---------------------------------------------------------------- administration

  /** A payout needs an ELIGIBLE referral, and changes nothing but its status. */
  lemma PayoutNeedsEligible(db: Database, u: nat)
    ensures MarkedPaid(db, u)
         == if u in db.referrals && db.referrals[u].status == ELIGIBLE
            then db.(referrals := db.referrals[u := db.referrals[u].(status := PAID)]) else db
  {
  }

  /** Everything but a paid referral can be rejected, which changes nothing but its status. */
  lemma RejectionSparesPaid(db: Database, u: nat)
    ensures Rejected(db, u)
         == if u in db.referrals && db.referrals[u].status != PAID
            then db.(referrals := db.referrals[u := db.referrals[u].(status := REJECTED)]) else db
  {
  }
}
