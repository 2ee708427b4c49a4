/** Referral rewards (referrals.service.ts). */
module Referrals {
  import opened Wrappers
  import opened BillingModel
  import opened BillingStore

  datatype ReferralError = ReferralNotFound | OnlyEligibleCanBePaid | PaidCannotBeRejected

  predicate Known(users: seq<User>, ids: seq<nat>) {
    forall i | 0 <= i < |ids| :: ids[i] < |users|
  }

  /** How many of `ids` belong to users with this document hash. */
  function HashCount(users: seq<User>, ids: seq<nat>, hash: string): nat
    requires Known(users, ids)
  {
    if ids == [] then 0
    else
      HashCount(users, ids[..|ids| - 1], hash)
      + if users[ids[|ids| - 1]].cpfHash == Some(hash) then 1 else 0
  }

  ghost predicate BatchCounts(users: seq<User>, ids: seq<nat>, hashesInBatch: map<string, nat>)
    requires Known(users, ids)
  {
    forall h :: HashCount(users, ids, h) == if h in hashesInBatch then hashesInBatch[h] else 0
  }

  ghost predicate Distinct(ids: seq<nat>) {
    forall i, j :: 0 <= i < j < |ids| ==> ids[i] != ids[j]
  }

  /** `ids` lists the set once, in some order. */
  ghost predicate Lists(ids: seq<nat>, items: set<nat>) {
    Distinct(ids) && forall u :: u in ids <==> u in items
  }

  lemma {:induction false} CountOfOthers(users: seq<User>, ids: seq<nat>, hash: string)
    requires Known(users, ids)
    requires Distinct(ids)
    ensures HashCount(users, ids, hash) > 0 <==> exists u :: u in ids && u < |users| && users[u].cpfHash == Some(hash)
    ensures HashCount(users, ids, hash) > 1
       <==> exists u, v :: u in ids && v in ids && u != v && u < |users| && v < |users|
                           && users[u].cpfHash == Some(hash) && users[v].cpfHash == Some(hash)
    decreases |ids|
  {
    if ids != [] {
      var init, last := ids[..|ids| - 1], ids[|ids| - 1];
      CountOfOthers(users, init, hash);
      assert ids == init + [last];
      assert last !in init;
      forall u | u in ids ensures u in init || u == last {
      }
    }
  }

  /** The batch counter of the job says whether another candidate shares the hash. */
  lemma CountMeansShared(db: Database, ids: seq<nat>, candidates: set<nat>, id: nat, hash: string)
    requires Lists(ids, candidates) && id in candidates && forall u <- candidates :: u < |db.users|
    requires Known(db.users, ids)
    requires db.users[id].cpfHash == Some(hash)
    ensures HashCount(db.users, ids, hash) > 1 <==> HashShared(db, candidates, id, hash)
  {
    CountOfOthers(db.users, ids, hash);
    if HashCount(db.users, ids, hash) > 1 {
      var u, v :|
        u in ids && v in ids && u != v && db.users[u].cpfHash == Some(hash) && db.users[v].cpfHash == Some(hash);
      assert u in candidates && v in candidates;
    }
    if u :| u in candidates && u != id && db.users[u].cpfHash == Some(hash) {
      assert u in ids && id in ids;
    }
  }

  /** The referrals once the candidates in `done` were handled. */
  ghost function PartlyProcessed(db: Database, now: int, done: set<nat>): map<nat, Referral> {
    var candidates := Candidates(db, now);
    map u | u in db.referrals ::
      if u in done && u in Decided(db, now) then Judged(db.referrals[u], Reason(db, candidates, u)) else db.referrals[u]
  }

  /** Judging other candidates cannot change what the job finds against one whose hash nobody shares. */
  lemma LiveQueryAgrees(db: Database, now: int, done: set<nat>, id: nat, hash: string)
    requires done <= Candidates(db, now) && id !in done && id in Candidates(db, now)
    requires db.users[id].cpfHash == Some(hash) && !HashShared(db, Candidates(db, now), id, hash)
    ensures HashRewarded(db.(referrals := PartlyProcessed(db, now, done)), id, hash) <==> HashRewarded(db, id, hash)
  {
    var partly := PartlyProcessed(db, now, done);
    forall u | u in db.referrals && u != id && u < |db.users| && db.users[u].cpfHash == Some(hash)
      ensures u in partly && partly[u] == db.referrals[u]
    {
      assert u !in Candidates(db, now);
    }
  }

  /** One more candidate handled. */
  lemma ProcessOne(db: Database, now: int, done: set<nat>, id: nat)
    requires id in Candidates(db, now) && id !in done
    ensures PartlyProcessed(db, now, done)[id] == db.referrals[id]
    ensures var next := PartlyProcessed(db, now, done + {id});
            next == if Payable(db.users[id])
                    then PartlyProcessed(db, now, done)[
                           id := Judged(db.referrals[id], Reason(db, Candidates(db, now), id))]
                    else PartlyProcessed(db, now, done)
    ensures |(done + {id}) * Decided(db, now)| == |done * Decided(db, now)| + if Payable(db.users[id]) then 1 else 0
  {
    if Payable(db.users[id]) {
      assert (done + {id}) * Decided(db, now) == done * Decided(db, now) + {id};
    } else {
      assert (done + {id}) * Decided(db, now) == done * Decided(db, now);
    }
  }

  ghost function First(ids: seq<nat>, n: nat): set<nat>
    requires n <= |ids|
  {
    set u | u in ids[..n]
  }

  lemma CandidatesAreKnown(db: Database, now: int, ids: seq<nat>)
    requires Lists(ids, Candidates(db, now))
    ensures Known(db.users, ids)
    ensures First(ids, 0) == {} && First(ids, |ids|) == Candidates(db, now)
    ensures Candidates(db, now) * Decided(db, now) == Decided(db, now)
  {
    assert ids[..|ids|] == ids;
    assert forall i | 0 <= i < |ids| :: ids[i] in ids;
  }

  lemma FirstGrows(ids: seq<nat>, n: nat, items: set<nat>)
    requires n < |ids| && Lists(ids, items)
    ensures First(ids, n + 1) == First(ids, n) + {ids[n]}
    ensures ids[n] !in First(ids, n) && ids[n] in items && First(ids, n) <= items
  {
    assert ids[..n + 1] == ids[..n] + [ids[n]];
    assert ids[n] in ids;
    forall u | u in ids[..n] ensures u in ids {
    }
  }

  lemma PartlyProcessedBounds(db: Database, now: int)
    ensures PartlyProcessed(db, now, {}) == db.referrals
    ensures PartlyProcessed(db, now, Candidates(db, now)) == EligibleProcessed(db, now).referrals
  {
  }

  class ReferralsService {
    const store: Store

    constructor (store: Store)
      ensures this.store == store
    {
      this.store := store;
    }

    method ConfirmPayment(referredUserId: nat, confirmedAt: int)
      modifies store`referrals
      ensures store.View() == PaymentConfirmed(old(store.View()), referredUserId, confirmedAt)
    {
      if referredUserId !in store.referrals {
        return;
      }
      var referral := store.referrals[referredUserId];
      if referral.status.ELIGIBLE? || referral.status.PAID? || referral.paymentConfirmedAt.Some? {
        return;
      }
      store.referrals := store.referrals[referredUserId := Referral(
        referral.referrer, PENDING_WAITING_PERIOD, Some(confirmedAt), Some(confirmedAt + store.waitingMs),
        referral.antifraudReason)];
    }

    method ResetWaitingPeriod(referredUserId: nat) returns (count: nat)
      modifies store`referrals
      ensures store.View() == WaitingReset(old(store.View()), referredUserId)
      ensures count == if old(store.View()) == store.View() then 0 else 1
    {
      if referredUserId !in store.referrals || !store.referrals[referredUserId].status.PENDING_WAITING_PERIOD? {
        return 0;
      }
      var referral := store.referrals[referredUserId];
      store.referrals := store.referrals[referredUserId := referral.(
        status := PENDING_PAYMENT, paymentConfirmedAt := None, eligibleAt := None)];
      assert store.referrals[referredUserId] != referral;
      return 1;
    }

    /** The batch counters of the document hashes. */
    method CountHashes(candidates: seq<nat>) returns (hashesInBatch: map<string, nat>)
      requires Known(store.users, candidates)
      ensures BatchCounts(store.users, candidates, hashesInBatch)
    {
      hashesInBatch := map[];
      for i := 0 to |candidates|
        invariant BatchCounts(store.users, candidates[..i], hashesInBatch)
      {
        assert candidates[..i + 1][..i] == candidates[..i];
        var hash := store.users[candidates[i]].cpfHash;
        if hash.Some? {
          hashesInBatch := hashesInBatch[hash.value :=
            (if hash.value in hashesInBatch then hashesInBatch[hash.value] else 0) + 1];
        }
      }
      assert candidates[..|candidates|] == candidates;
    }

    /** `candidates` is what `findMany` returned, in whatever order. The outcome mentions no order. */
    method ProcessEligible(candidates: seq<nat>, now: int) returns (processed: nat)
      requires ForeignKeys(store.View()) && Lists(candidates, Candidates(store.View(), now))
      modifies store`referrals
      ensures store.View() == EligibleProcessed(old(store.View()), now)
      ensures processed == |Decided(old(store.View()), now)|
    {
      ghost var before := store.View();
      CandidatesAreKnown(before, now, candidates);
      var hashesInBatch := CountHashes(candidates);
      processed := 0;
      PartlyProcessedBounds(before, now);
      for i := 0 to |candidates|
        invariant store.View() == before.(referrals := PartlyProcessed(before, now, First(candidates, i)))
        invariant processed == |First(candidates, i) * Decided(before, now)|
      {
        FirstGrows(candidates, i, Candidates(before, now));
        var handled := ProcessCandidate(candidates[i], hashesInBatch, before, now, candidates, First(candidates, i));
        if handled {
          processed := processed + 1;
        }
      }
    }

    /** One turn of the loop; `done` are the candidates of the turns before. */
    method ProcessCandidate(
      candidate: nat, hashesInBatch: map<string, nat>,
      ghost before: Database, ghost now: int, ghost candidates: seq<nat>, ghost done: set<nat>)
      returns (handled: bool)
      requires ForeignKeys(before) && Lists(candidates, Candidates(before, now))
      requires done <= Candidates(before, now) && candidate in Candidates(before, now) && candidate !in done
      requires store.View() == before.(referrals := PartlyProcessed(before, now, done))
      requires Known(store.users, candidates)
      requires BatchCounts(store.users, candidates, hashesInBatch)
      modifies store`referrals
      ensures store.View() == before.(referrals := PartlyProcessed(before, now, done + {candidate}))
      ensures |(done + {candidate}) * Decided(before, now)| == |done * Decided(before, now)| + if handled then 1 else 0
    {
      ProcessOne(before, now, done, candidate);
      var referred := store.users[candidate];
      if !referred.isActive || !referred.status.ACTIVE? {
        return false;
      }
      var reason := ReadAntifraudReason(candidate, hashesInBatch, before, now, candidates, done);
      store.referrals := store.referrals[candidate := store.referrals[candidate].(
        status := if reason.Some? then NEEDS_REVIEW else ELIGIBLE, antifraudReason := reason)];
      return true;
    }

    /** Reads the candidate as selected and the rewarded referrals as they are by now. */
    method ReadAntifraudReason(
      id: nat, hashesInBatch: map<string, nat>,
      ghost before: Database, ghost now: int, ghost candidates: seq<nat>, ghost done: set<nat>)
      returns (reason: Option<AntifraudReason>)
      requires ForeignKeys(before) && Lists(candidates, Candidates(before, now))
      requires done <= Candidates(before, now) && id in Candidates(before, now) && id !in done
      requires store.View() == before.(referrals := PartlyProcessed(before, now, done))
      requires Known(store.users, candidates)
      requires BatchCounts(store.users, candidates, hashesInBatch)
      ensures reason == Reason(before, Candidates(before, now), id)
    {
      var referral, referred := store.referrals[id], store.users[id];
      if referral.paymentConfirmedAt.None? || referral.eligibleAt.None? {
        return Some(MISSING_PAYMENT_CONFIRMATION);
      }
      if referred.referredBy.None? {
        return Some(MISSING_REFERRER_LINK);
      }
      if referral.referrer == id || referred.referredBy.value == id {
        return Some(SELF_REFERRAL);
      }
      if referred.referredBy.value != referral.referrer {
        return Some(REFERRER_LINK_MISMATCH);
      }
      if referred.cpfHash.None? {
        return Some(MISSING_CPF_CNPJ_HASH);
      }
      var hash := referred.cpfHash.value;
      CountMeansShared(before, candidates, Candidates(before, now), id, hash);
      if (if hash in hashesInBatch then hashesInBatch[hash] else 0) > 1 {
        return Some(DUPLICATE_CPF_CNPJ);
      }
      LiveQueryAgrees(before, now, done, id, hash);
      if HashRewarded(store.View(), id, hash) {
        return Some(DUPLICATE_CPF_CNPJ);
      }
      return None;
    }

    method MarkPaid(id: nat) returns (result: Result<(), ReferralError>)
      modifies store`referrals
      ensures store.View() == MarkedPaid(old(store.View()), id)
      ensures result == if id !in old(store.referrals) then Failure(ReferralNotFound)
                        else if old(store.referrals)[id].status.ELIGIBLE? then Success(())
                        else Failure(OnlyEligibleCanBePaid)
    {
      if id !in store.referrals {
        return Failure(ReferralNotFound);
      }
      if !store.referrals[id].status.ELIGIBLE? {
        return Failure(OnlyEligibleCanBePaid);
      }
      store.referrals := store.referrals[id := store.referrals[id].(status := PAID)];
      return Success(());
    }

    method Reject(id: nat) returns (result: Result<(), ReferralError>)
      modifies store`referrals
      ensures store.View() == Rejected(old(store.View()), id)
      ensures result == if id !in old(store.referrals) then Failure(ReferralNotFound)
                        else if old(store.referrals)[id].status.PAID? then Failure(PaidCannotBeRejected)
                        else Success(())
    {
      if id !in store.referrals {
        return Failure(ReferralNotFound);
      }
      if store.referrals[id].status.PAID? {
        return Failure(PaidCannotBeRejected);
      }
      store.referrals := store.referrals[id := store.referrals[id].(status := REJECTED)];
      return Success(());
    }
  }

  // ---------------------------------------------------------------- the job

  /** No two rewarded referrals are of users with the same document. */
  ghost predicate RewardsUnique(db: Database) {
    forall u, v | u in db.referrals && v in db.referrals && u != v && u < |db.users| && v < |db.users| ::
      IsRewarded(db.referrals[u].status) && IsRewarded(db.referrals[v].status) && db.users[u].cpfHash.Some?
      ==> db.users[u].cpfHash != db.users[v].cpfHash
  }

  /** The job never rewards one document twice. */
  lemma JobKeepsRewardsUnique(db: Database, now: int)
    requires ForeignKeys(db) && RewardsUnique(db)
    ensures RewardsUnique(EligibleProcessed(db, now))
  {
    var after := EligibleProcessed(db, now);
    var candidates := Candidates(db, now);
    forall u, v | u in after.referrals && v in after.referrals && u != v
                  && IsRewarded(after.referrals[u].status) && IsRewarded(after.referrals[v].status)
                  && db.users[u].cpfHash.Some?
      ensures db.users[u].cpfHash != db.users[v].cpfHash
    {
      var hash := db.users[u].cpfHash.value;
      if db.users[v].cpfHash == Some(hash) {
        if u in Decided(db, now) && v in Decided(db, now) {
        } else if u in Decided(db, now) {
          assert HashRewarded(db, u, hash);
        } else if v in Decided(db, now) {
          assert HashRewarded(db, v, hash);
        }
      }
    }
  }

  /** A second run at the same time finds nothing to decide and changes nothing. */
  lemma JobIsIdempotent(db: Database, now: int)
    requires ForeignKeys(db)
    ensures Decided(EligibleProcessed(db, now), now) == {}
    ensures EligibleProcessed(EligibleProcessed(db, now), now) == EligibleProcessed(db, now)
  {
    var after := EligibleProcessed(db, now);
    forall u | u in Candidates(after, now) ensures !Payable(after.users[u]) {
      assert u in Candidates(db, now);
    }
    assert Decided(after, now) == {};
  }
}
