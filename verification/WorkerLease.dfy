/** Session leases (worker-lease.service.ts). Workers of several processes compete for the
    row of a session through conditional updates; each update is one atomic step of the
    database. Lease tokens are 32 random bytes in hexadecimal, so a token is never drawn twice. */
module WorkerLease {
  import opened Wrappers

  datatype Row = Row(
    workerId: Option<string>,
    token: Option<string>,
    expiresAt: Option<int>,
    lastHeartbeatAt: Option<int>,
    deleted: bool)

  datatype Lease = Lease(sessionId: string, token: string, workerId: string, expiresAt: int)

  predicate PlausibleToken(token: string) {
    |token| == 64 && forall c <- token :: '0' <= c <= '9' || 'a' <= c <= 'f'
  }

  // ---------------------------------------------------------------- the conditional updates, on one row

  predicate Acquirable(row: Row, worker: string, now: int) {
    && !row.deleted
    && (|| row.workerId.None?
        || row.expiresAt.None?
        || row.expiresAt.value <= now
        || row.workerId == Some(worker))
  }

  predicate Renewable(row: Row, worker: string, token: string) {
    PlausibleToken(token) && row.workerId == Some(worker) && row.token == Some(token) && !row.deleted
  }

  predicate Releasable(row: Row, worker: string, token: string) {
    PlausibleToken(token) && row.workerId == Some(worker) && row.token == Some(token)
  }

  predicate Owned(row: Row, worker: string, token: string, now: int) {
    && PlausibleToken(token)
    && row.workerId == Some(worker) && !row.deleted
    && row.expiresAt.Some? && now < row.expiresAt.value
    && row.token == Some(token)
  }

  function Acquired(row: Row, worker: string, token: string, now: int, leaseMs: nat): Row {
    if Acquirable(row, worker, now)
    then row.(workerId := Some(worker), token := Some(token), expiresAt := Some(now + leaseMs),
              lastHeartbeatAt := Some(now))
    else row
  }

  function Renewed(row: Row, worker: string, token: string, now: int, leaseMs: nat): Row {
    if Renewable(row, worker, token)
    then row.(expiresAt := Some(now + leaseMs), lastHeartbeatAt := Some(now))
    else row
  }

  function Released(row: Row, worker: string, token: string): Row {
    if Releasable(row, worker, token) then Row(None, None, None, None, row.deleted) else row
  }

  // ---------------------------------------------------------------- the service of one process

  class SessionTable {
    var rows: map<string, Row>

    constructor (rows: map<string, Row>)
      ensures this.rows == rows
    {
      this.rows := rows;
    }
  }

  class WorkerLeaseService {
    const table: SessionTable
    const leaseMs: nat
    var currentWorker: Option<string>

    constructor (table: SessionTable, leaseMs: nat)
      ensures this.table == table && this.leaseMs == leaseMs && currentWorker == None
    {
      this.table := table;
      this.leaseMs := leaseMs;
      currentWorker := None;
    }

    /** `embeddedId` is the id the worker gets when it registers on first use; `token` the random token drawn. */
    method AcquireSessionLease(sessionId: string, embeddedId: string, token: string, now: int)
      returns (lease: Option<Lease>)
      modifies this`currentWorker, table
      ensures currentWorker == Some(if old(currentWorker).Some? then old(currentWorker).value else embeddedId)
      ensures lease.Some? <==> sessionId in old(table.rows)
                               && Acquirable(old(table.rows)[sessionId], currentWorker.value, now)
      ensures lease.Some? ==> lease.value == Lease(sessionId, token, currentWorker.value, now + leaseMs)
      ensures table.rows == if sessionId in old(table.rows)
                            then var row := old(table.rows)[sessionId];
                                 old(table.rows)[sessionId := Acquired(row, currentWorker.value, token, now, leaseMs)]
                            else old(table.rows)
    {
      if currentWorker.None? {
        currentWorker := Some(embeddedId);
      }
      var worker := currentWorker.value;
      var expiresAt := now + leaseMs;
      if sessionId !in table.rows || !Acquirable(table.rows[sessionId], worker, now) {
        return None;
      }
      table.rows := table.rows[sessionId :=
        Row(Some(worker), Some(token), Some(expiresAt), Some(now), table.rows[sessionId].deleted)];
      return Some(Lease(sessionId, token, worker, expiresAt));
    }

    method RenewSessionLease(sessionId: string, token: string, now: int) returns (renewed: bool)
      modifies table
      ensures renewed <==> currentWorker.Some? && sessionId in old(table.rows)
                           && Renewable(old(table.rows)[sessionId], currentWorker.value, token)
      ensures table.rows == if currentWorker.Some? && sessionId in old(table.rows)
                            then var row := old(table.rows)[sessionId];
                                 old(table.rows)[sessionId := Renewed(row, currentWorker.value, token, now, leaseMs)]
                            else old(table.rows)
    {
      if currentWorker.None? || !PlausibleToken(token) {
        return false;
      }
      if sessionId !in table.rows {
        return false;
      }
      var row := table.rows[sessionId];
      if row.workerId != currentWorker || row.token != Some(token) || row.deleted {
        return false;
      }
      table.rows := table.rows[sessionId := row.(lastHeartbeatAt := Some(now), expiresAt := Some(now + leaseMs))];
      return true;
    }

    method ReleaseSessionLease(sessionId: string, token: string) returns (released: bool)
      modifies table
      ensures released <==> currentWorker.Some? && sessionId in old(table.rows)
                            && Releasable(old(table.rows)[sessionId], currentWorker.value, token)
      ensures table.rows == if currentWorker.Some? && sessionId in old(table.rows)
                            then var row := old(table.rows)[sessionId];
                                 old(table.rows)[sessionId := Released(row, currentWorker.value, token)]
                            else old(table.rows)
    {
      if currentWorker.None? || !PlausibleToken(token) {
        return false;
      }
      if sessionId !in table.rows {
        return false;
      }
      var row := table.rows[sessionId];
      if row.workerId != currentWorker || row.token != Some(token) {
        return false;
      }
      table.rows := table.rows[sessionId :=
        row.(workerId := None, token := None, expiresAt := None, lastHeartbeatAt := None)];
      return true;
    }

    method AssertLeaseOwner(sessionId: string, token: string, now: int) returns (owner: bool)
      ensures owner <==> currentWorker.Some? && sessionId in table.rows
                         && Owned(table.rows[sessionId], currentWorker.value, token, now)
    {
      if currentWorker.None? || !PlausibleToken(token) || sessionId !in table.rows {
        return false;
      }
      var row := table.rows[sessionId];
      if row.workerId != currentWorker || row.deleted || row.expiresAt.None? || row.expiresAt.value <= now {
        return false;
      }
      return row.token.Some? && row.token.value == token;
    }
  }

  // ---------------------------------------------------------------- runs of all workers on one session

  datatype Step =
    | Acquire(worker: string, token: string, now: int)
    | Renew(worker: string, token: string, now: int)
    | Release(worker: string, token: string, now: int)
    | Delete(now: int)

  /** The row together with every token drawn so far. */
  datatype System = System(row: Row, drawn: set<string>)

  function Next(sys: System, step: Step, leaseMs: nat): System {
    match step
    case Acquire(worker, token, now) => System(Acquired(sys.row, worker, token, now, leaseMs), sys.drawn + {token})
    case Renew(worker, token, now) => sys.(row := Renewed(sys.row, worker, token, now, leaseMs))
    case Release(worker, token, now) => sys.(row := Released(sys.row, worker, token))
    case Delete(_) => sys.(row := sys.row.(deleted := true))
  }

  function Run(sys: System, steps: seq<Step>, leaseMs: nat): System
    decreases |steps|
  {
    if steps == [] then sys else Run(Next(sys, steps[0], leaseMs), steps[1..], leaseMs)
  }

  /** No draw repeats an earlier one. */
  ghost predicate FreshDraws(sys: System, steps: seq<Step>, leaseMs: nat)
    decreases |steps|
  {
    steps != [] ==>
      && (steps[0].Acquire? ==> steps[0].token !in sys.drawn)
      && FreshDraws(Next(sys, steps[0], leaseMs), steps[1..], leaseMs)
  }

  /** A token that was drawn and is not in the row: overwritten, released or refused. */
  ghost predicate Dead(sys: System, token: string) {
    token in sys.drawn && sys.row.token != Some(token)
  }

  ghost predicate Powerless(row: Row, token: string) {
    && (forall worker :: !Renewable(row, worker, token))
    && (forall worker :: !Releasable(row, worker, token))
    && (forall worker, now :: !Owned(row, worker, token, now))
    && (forall worker, now, leaseMs: nat :: Renewed(row, worker, token, now, leaseMs) == row)
    && (forall worker :: Released(row, worker, token) == row)
  }

  lemma OthersArePowerless(row: Row, token: string)
    requires row.token != Some(token)
    ensures Powerless(row, token)
  {
  }

  lemma DeadStaysDead(sys: System, step: Step, leaseMs: nat, token: string)
    requires Dead(sys, token) && (step.Acquire? ==> step.token !in sys.drawn)
    ensures Dead(Next(sys, step, leaseMs), token)
  {
  }

  /** Once overwritten or released, a token never passes renew, release or assert again and changes nothing. */
  lemma {:induction false} DeadTokensStayPowerless(sys: System, steps: seq<Step>, leaseMs: nat, token: string)
    requires Dead(sys, token) && FreshDraws(sys, steps, leaseMs)
    ensures Dead(Run(sys, steps, leaseMs), token)
    ensures Powerless(Run(sys, steps, leaseMs).row, token)
    decreases |steps|
  {
    if steps == [] {
      OthersArePowerless(sys.row, token);
    } else {
      DeadStaysDead(sys, steps[0], leaseMs, token);
      DeadTokensStayPowerless(Next(sys, steps[0], leaseMs), steps[1..], leaseMs, token);
    }
  }

  /** The two ways a token in the row dies: its release, and any later successful acquire. */
  lemma TokensDieOnReleaseAndOverwrite(sys: System, step: Step, leaseMs: nat, token: string)
    requires sys.row.token == Some(token) && token in sys.drawn
    requires step.Acquire? ==> step.token !in sys.drawn
    ensures Dead(Next(sys, step, leaseMs), token) <==>
            || (step.Release? && step.token == token && Releasable(sys.row, step.worker, token))
            || (step.Acquire? && Acquirable(sys.row, step.worker, step.now))
  {
  }

  lemma {:induction false} RunConcat(sys: System, first: seq<Step>, second: seq<Step>, leaseMs: nat)
    ensures Run(sys, first + second, leaseMs) == Run(Run(sys, first, leaseMs), second, leaseMs)
    ensures FreshDraws(sys, first + second, leaseMs) ==>
              FreshDraws(sys, first, leaseMs) && FreshDraws(Run(sys, first, leaseMs), second, leaseMs)
    decreases |first|
  {
    if first == [] {
      assert first + second == second;
    } else {
      assert (first + second)[1..] == first[1..] + second;
      RunConcat(Next(sys, first[0], leaseMs), first[1..], second, leaseMs);
    }
  }

  /** Drawn tokens stay drawn. */
  lemma {:induction false} DrawnGrows(sys: System, steps: seq<Step>, leaseMs: nat)
    ensures sys.drawn <= Run(sys, steps, leaseMs).drawn
    decreases |steps|
  {
    if steps != [] {
      DrawnGrows(Next(sys, steps[0], leaseMs), steps[1..], leaseMs);
    }
  }

  /** Fencing: if a token passes the owner check after a run, it was in the row at every moment of the
      run, so nobody else held the lease in between. */
  lemma OwnershipWasUninterrupted(
    sys: System, steps: seq<Step>, k: nat, leaseMs: nat, worker: string, token: string, now: int)
    requires token in sys.drawn && FreshDraws(sys, steps, leaseMs) && k <= |steps|
    requires Owned(Run(sys, steps, leaseMs).row, worker, token, now)
    ensures Run(sys, steps[..k], leaseMs).row.token == Some(token)
  {
    var middle := Run(sys, steps[..k], leaseMs);
    assert steps == steps[..k] + steps[k..];
    RunConcat(sys, steps[..k], steps[k..], leaseMs);
    DrawnGrows(sys, steps[..k], leaseMs);
    if middle.row.token != Some(token) {
      DeadTokensStayPowerless(middle, steps[k..], leaseMs, token);
    }
  }

  // ---------------------------------------------------------------- a renewing holder is not displaced

  /** Every step of the run comes less than a lease after the holder's latest acquire or renewal, and the
      holder does not release. `token` is the holder's token, `touched` the time of that latest step. */
  ghost predicate RenewsInTime(steps: seq<Step>, worker: string, token: string, touched: int, leaseMs: nat) {
    steps != [] ==>
      var step := steps[0];
      && step.now < touched + leaseMs
      && !(step.Release? && step.worker == worker && step.token == token)
      && if step.Renew? && step.worker == worker && step.token == token
         then RenewsInTime(steps[1..], worker, token, step.now, leaseMs)
         else if step.Acquire? && step.worker == worker
         then RenewsInTime(steps[1..], worker, step.token, step.now, leaseMs)
         else RenewsInTime(steps[1..], worker, token, touched, leaseMs)
  }

  /** A holder that renews in time is never displaced by a different worker. */
  lemma {:induction false} RenewingHolderKeepsTheSession(
    sys: System, steps: seq<Step>, worker: string, token: string, touched: int, leaseMs: nat)
    requires !sys.row.deleted && sys.row.workerId == Some(worker)
    requires sys.row.token == Some(token) && sys.row.expiresAt == Some(touched + leaseMs)
    requires PlausibleToken(token) && forall step <- steps :: step.Acquire? ==> PlausibleToken(step.token)
    requires RenewsInTime(steps, worker, token, touched, leaseMs)
    ensures var row := Run(sys, steps, leaseMs).row;
            row.workerId == Some(worker) || (row.deleted && row.workerId.None?)
    decreases |steps|
  {
    if steps != [] {
      var step := steps[0];
      assert step in steps;
      var next := Next(sys, step, leaseMs);
      if step.Delete? {
        NothingIsLeasedAfterDeletion(next, steps[1..], leaseMs);
      } else if step.Renew? && step.worker == worker && step.token == token {
        RenewingHolderKeepsTheSession(next, steps[1..], worker, token, step.now, leaseMs);
      } else if step.Acquire? && step.worker == worker {
        RenewingHolderKeepsTheSession(next, steps[1..], worker, step.token, step.now, leaseMs);
      } else {
        RenewingHolderKeepsTheSession(next, steps[1..], worker, token, touched, leaseMs);
      }
    }
  }

  /** Nobody has taken or renewed the lease within its length before `now`. */
  ghost predicate Silent(steps: seq<Step>, now: int, leaseMs: nat) {
    forall step <- steps :: step.Acquire? || step.Renew? ==> step.now + leaseMs <= now
  }

  lemma {:induction false} SilentLeasesRunOut(sys: System, steps: seq<Step>, now: int, leaseMs: nat)
    requires sys.row.expiresAt.Some? ==> sys.row.expiresAt.value <= now
    requires Silent(steps, now, leaseMs)
    ensures var row := Run(sys, steps, leaseMs).row; row.expiresAt.Some? ==> row.expiresAt.value <= now
    decreases |steps|
  {
    if steps != [] {
      assert steps[0] in steps;
      assert forall step <- steps[1..] :: step in steps;
      SilentLeasesRunOut(Next(sys, steps[0], leaseMs), steps[1..], now, leaseMs);
    }
  }

  /** The other half of safety: after any run in which nobody took or renewed the lease within its length, a worker
      that asks gets it, is then the only one that passes, with its token, for exactly one lease length, and
      keeps everybody else out for as long. */
  lemma AbandonedLeasesAreTakenOver(
    sys: System, steps: seq<Step>, worker: string, token: string, now: int, leaseMs: nat, later: int)
    requires (sys.row.expiresAt.Some? ==> sys.row.expiresAt.value <= now) && Silent(steps, now, leaseMs)
    requires PlausibleToken(token) && !Run(sys, steps, leaseMs).row.deleted
    ensures var taken := Run(sys, steps + [Acquire(worker, token, now)], leaseMs).row;
            && (Owned(taken, worker, token, later) <==> later < now + leaseMs)
            && (forall other, t :: Owned(taken, other, t, later) ==> other == worker && t == token)
            && (forall other :: other != worker ==> (Acquirable(taken, other, later) <==> now + leaseMs <= later))
  {
    SilentLeasesRunOut(sys, steps, now, leaseMs);
    RunConcat(sys, steps, [Acquire(worker, token, now)], leaseMs);
    var before := Run(sys, steps, leaseMs);
    assert Run(before, [Acquire(worker, token, now)], leaseMs) == Next(before, Acquire(worker, token, now), leaseMs);
  }

  // ---------------------------------------------------------------- what the three updates leave

  /** An acquire takes any undeleted row but one with an unexpired lease of another worker, which it leaves alone. */
  lemma AcquireLeaves(row: Row, worker: string, token: string, now: int, leaseMs: nat)
    ensures var foreign := row.workerId.Some? && row.workerId.value != worker
                           && row.expiresAt.Some? && now < row.expiresAt.value;
            Acquired(row, worker, token, now, leaseMs)
            == if row.deleted || foreign then row
               else Row(Some(worker), Some(token), Some(now + leaseMs), Some(now), false)
  {
  }

  /** A renewal by the worker with the token in the row extends the lease from now, also one that has run out; any
      other leaves the row alone. */
  lemma RenewalLeaves(row: Row, worker: string, token: string, now: int, leaseMs: nat)
    requires PlausibleToken(token)
    ensures Renewed(row, worker, token, now, leaseMs)
         == if row.workerId == Some(worker) && row.token == Some(token) && !row.deleted
            then Row(Some(worker), Some(token), Some(now + leaseMs), Some(now), false) else row
  {
  }

  /** A release by the worker with the token in the row clears the lease, in a deleted row too; any other leaves the
      row alone. */
  lemma ReleaseLeaves(row: Row, worker: string, token: string)
    requires PlausibleToken(token)
    ensures Released(row, worker, token)
         == if row.workerId == Some(worker) && row.token == Some(token) then Row(None, None, None, None, row.deleted)
            else row
  {
  }

  /** The owner that releases gives the session away: nobody owns it any more and everybody can take it at once. */
  lemma ReleaseFreesTheSession(sys: System, worker: string, token: string, now: int, leaseMs: nat)
    requires Owned(sys.row, worker, token, now)
    ensures var row := Next(sys, Release(worker, token, now), leaseMs).row;
            && (forall other, later :: Acquirable(row, other, later))
            && (forall other, t, later :: !Owned(row, other, t, later))
  {
    ReleaseLeaves(sys.row, worker, token);
  }

  // ---------------------------------------------------------------- tokens

  function Digit(n: nat): char
    requires n < 16
  {
    if n < 10 then '0' + n as char else 'a' + (n - 10) as char
  }

  type Byte = n: nat | n < 256

  function Hex(bytes: seq<Byte>): string {
    if bytes == [] then "" else [Digit(bytes[0] / 16), Digit(bytes[0] % 16)] + Hex(bytes[1..])
  }

  predicate IsDigit(c: char) {
    '0' <= c <= '9' || 'a' <= c <= 'f'
  }

  lemma {:induction false} HexIsDigits(bytes: seq<Byte>)
    ensures |Hex(bytes)| == 2 * |bytes| && forall c <- Hex(bytes) :: IsDigit(c)
  {
    if bytes != [] { HexIsDigits(bytes[1..]); }
  }

  lemma DigitIsHit(c: char) returns (n: nat)
    requires IsDigit(c)
    ensures n < 16 && Digit(n) == c
  {
    n := if c <= '9' then (c - '0') as nat else 10 + (c - 'a') as nat;
  }

  lemma {:induction false} DigitsAreHex(text: string) returns (bytes: seq<Byte>)
    requires |text| % 2 == 0 && forall c <- text :: IsDigit(c)
    ensures 2 * |bytes| == |text| && Hex(bytes) == text
    decreases |text|
  {
    bytes := [];
    if text != "" {
      var high := DigitIsHit(text[0]);
      var low := DigitIsHit(text[1]);
      var rest := DigitsAreHex(text[2..]);
      var first: Byte := 16 * high + low;
      bytes := [first] + rest;
      assert first / 16 == high && first % 16 == low;
      assert bytes[0] == first && bytes[1..] == rest;
      assert text == [text[0], text[1]] + text[2..];
    }
  }

  /** The plausible tokens are exactly the texts of 32 bytes in lower-case hexadecimal, which are the ones drawn. */
  lemma PlausibleIff(token: string)
    ensures PlausibleToken(token) <==> exists bytes: seq<Byte> :: |bytes| == 32 && Hex(bytes) == token
  {
    if PlausibleToken(token) {
      assert forall c <- token :: IsDigit(c);
      var bytes := DigitsAreHex(token);
      assert |bytes| == 32 && Hex(bytes) == token;
    }
    if bytes: seq<Byte> :| |bytes| == 32 && Hex(bytes) == token {
      HexIsDigits(bytes);
      assert forall c <- token :: IsDigit(c);
    }
  }

  // ---------------------------------------------------------------- deletion

  /** After deletion no acquire, renewal or owner check succeeds any more, whatever the run. */
  lemma {:induction false} NothingIsLeasedAfterDeletion(sys: System, steps: seq<Step>, leaseMs: nat)
    requires sys.row.deleted
    ensures var row := Run(sys, steps, leaseMs).row;
            && row.deleted
            && (forall worker, now :: !Acquirable(row, worker, now))
            && (forall worker, token :: !Renewable(row, worker, token))
            && (forall worker, token, now :: !Owned(row, worker, token, now))
            && (row.workerId == sys.row.workerId || row.workerId.None?)
    decreases |steps|
  {
    if steps != [] {
      NothingIsLeasedAfterDeletion(Next(sys, steps[0], leaseMs), steps[1..], leaseMs);
    }
  }
}
