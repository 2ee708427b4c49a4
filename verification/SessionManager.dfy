/** The runtime part of the session manager of one process (whatsapp-session.manager.ts).
    An async function is cut at its awaits: what runs between two awaits is one atomic step,
    and steps of different calls interleave freely. A promise is named by the boot it belongs to. */
module SessionManager {

  type Socket = nat
  type BootId = nat

  datatype Managed = Managed(socket: Socket, listenerRegistered: bool, leaseToken: string)

  /** `installed`: `sessions.set` was reached; `settled`: the promise of `bootSocket` is settled. */
  datatype Boot = Boot(sessionId: string, installed: bool, settled: bool)

  datatype State = State(
    sessions: map<string, Managed>,
    pendingStarts: map<string, BootId>,
    boots: map<BootId, Boot>,          // calls of startRuntime that have not run their `finally`
    listeners: map<Socket, nat>,       // `messages.upsert` listeners of every socket ever made
    nextBoot: BootId)

  const INITIAL := State(map[], map[], map[], map[], 0)

  function ListenerCount(s: State, socket: Socket): nat {
    if socket in s.listeners then s.listeners[socket] else 0
  }

  function Registered(s: State, sessionId: string, socket: Socket): State {
    if sessionId !in s.sessions || s.sessions[sessionId].socket != socket || s.sessions[sessionId].listenerRegistered
    then s
    else s.(listeners := s.listeners[socket := ListenerCount(s, socket) + 1],
            sessions := s.sessions[sessionId := s.sessions[sessionId].(listenerRegistered := true)])
  }

  function Started(s: State, sessionId: string): State {
    if sessionId in s.pendingStarts then s
    else if sessionId in s.sessions then Registered(s, sessionId, s.sessions[sessionId].socket)
    else s.(boots := s.boots[s.nextBoot := Boot(sessionId, false, false)],
            pendingStarts := s.pendingStarts[sessionId := s.nextBoot],
            nextBoot := s.nextBoot + 1)
  }

  function Installed(s: State, boot: BootId, socket: Socket, leaseToken: string): State
    requires boot in s.boots
  {
    var sessionId := s.boots[boot].sessionId;
    Registered(
      s.(boots := s.boots[boot := s.boots[boot].(installed := true)],
         sessions := s.sessions[sessionId := Managed(socket, false, leaseToken)],
         listeners := s.listeners[socket := 0]),
      sessionId, socket)
  }

  function Settled(s: State, boot: BootId): State
    requires boot in s.boots
  {
    s.(boots := s.boots[boot := s.boots[boot].(settled := true)])
  }

  function Finished(s: State, boot: BootId): State
    requires boot in s.boots
  {
    s.(pendingStarts := s.pendingStarts - {s.boots[boot].sessionId}, boots := s.boots - {boot})
  }

  function Dropped(s: State, sessionId: string): State {
    s.(sessions := s.sessions - {sessionId})
  }

  datatype StartResult = Joined(pending: BootId) | AlreadyRunning | Booting(boot: BootId)

  class WhatsAppSessionManager {
    var sessions: map<string, Managed>
    var pendingStarts: map<string, BootId>
    var boots: map<BootId, Boot>
    var listeners: map<Socket, nat>
    var nextBoot: BootId

    function View(): State
      reads this
    {
      State(sessions, pendingStarts, boots, listeners, nextBoot)
    }

    constructor ()
      ensures View() == INITIAL
    {
      sessions, pendingStarts, boots, listeners, nextBoot := map[], map[], map[], map[], 0;
    }

    /** Up to its first await: join the pending start, reuse the running socket, or boot. */
    method StartRuntime(sessionId: string) returns (result: StartResult)
      modifies this
      ensures View() == Started(old(View()), sessionId)
      ensures result.Booting? <==> sessionId !in old(pendingStarts) && sessionId !in old(sessions)
      ensures result.Joined? <==> sessionId in old(pendingStarts)
      ensures result.Joined? ==> result.pending == old(pendingStarts)[sessionId]
      ensures result.Booting? ==>
                && result.boot == old(nextBoot) && nextBoot == old(nextBoot) + 1
                && boots == old(boots)[result.boot := Boot(sessionId, false, false)]
                && pendingStarts == old(pendingStarts)[sessionId := result.boot]
    {
      if sessionId in pendingStarts {
        return Joined(pendingStarts[sessionId]);
      }
      if sessionId in sessions {
        RegisterMessageListener(sessionId, sessions[sessionId].socket);
        return AlreadyRunning;
      }
      var boot := nextBoot;
      nextBoot := nextBoot + 1;
      boots := boots[boot := Boot(sessionId, false, false)];
      pendingStarts := pendingStarts[sessionId := boot];
      return Booting(boot);
    }

    /** The segment of `bootSocket` between reading the auth state and waiting for the QR code. */
    method InstallSocket(boot: BootId, socket: Socket, leaseToken: string)
      requires boot in boots
      modifies this
      ensures View() == Installed(old(View()), boot, socket, leaseToken)
    {
      var sessionId := boots[boot].sessionId;
      listeners := listeners[socket := 0];
      boots := boots[boot := boots[boot].(installed := true)];
      sessions := sessions[sessionId := Managed(socket, false, leaseToken)];
      RegisterMessageListener(sessionId, socket);
    }

    method RegisterMessageListener(sessionId: string, socket: Socket)
      modifies this`sessions, this`listeners
      ensures View() == Registered(old(View()), sessionId, socket)
    {
      if sessionId !in sessions {
        return;
      }
      var managed := sessions[sessionId];
      if managed.socket != socket || managed.listenerRegistered {
        return;
      }
      listeners := listeners[socket := (if socket in listeners then listeners[socket] else 0) + 1];
      sessions := sessions[sessionId := managed.(listenerRegistered := true)];
    }

    /** The `finally` of the call that created the pending start. */
    method FinishStart(boot: BootId)
      requires boot in boots
      modifies this
      ensures View() == Finished(old(View()), boot)
    {
      pendingStarts := pendingStarts - {boots[boot].sessionId};
      boots := boots - {boot};
    }

    /** `sessions.delete`, wherever the source calls it: reconnect, delete, lost lease, closed or deleted session. */
    method DropSession(sessionId: string)
      modifies this
      ensures View() == Dropped(old(View()), sessionId)
    {
      sessions := sessions - {sessionId};
    }
  }

  // ---------------------------------------------------------------- interleaved runs

  /** Every atomic step the process can take, in any order. `Register` and `Drop` stand for the socket event
      handlers and timers: they may name any session and any socket, also ones that are stale by then. */
  datatype Step =
    | Start(sessionId: string)
    | Install(boot: BootId, socket: Socket, leaseToken: string)
    | Settle(boot: BootId)
    | Finish(boot: BootId)
    | Register(sessionId: string, socket: Socket)
    | Drop(sessionId: string)

  /** A boot installs once, before it settles, a socket that `makeWASocket` just made; `finally` runs after it
      settled. */
  ghost predicate Enabled(s: State, step: Step) {
    match step
    case Install(boot, socket, _) =>
      boot in s.boots && !s.boots[boot].installed && !s.boots[boot].settled && socket !in s.listeners
    case Settle(boot) => boot in s.boots
    case Finish(boot) => boot in s.boots && s.boots[boot].settled
    case _ => true
  }

  ghost function Next(s: State, step: Step): State
    requires Enabled(s, step)
  {
    match step
    case Start(sessionId) => Started(s, sessionId)
    case Install(boot, socket, leaseToken) => Installed(s, boot, socket, leaseToken)
    case Settle(boot) => Settled(s, boot)
    case Finish(boot) => Finished(s, boot)
    case Register(sessionId, socket) => Registered(s, sessionId, socket)
    case Drop(sessionId) => Dropped(s, sessionId)
  }

  /** `states` is a run: it begins in the initial state and each state is an enabled step after the one before. */
  ghost predicate IsRun(states: seq<State>, steps: seq<Step>) {
    && |states| == |steps| + 1
    && states[0] == INITIAL
    && forall i :: 0 <= i < |steps| ==> Enabled(states[i], steps[i]) && states[i + 1] == Next(states[i], steps[i])
  }

  ghost predicate PendingIsUnfinishedBoot(s: State) {
    && (forall id <- s.pendingStarts :: s.pendingStarts[id] in s.boots && s.boots[s.pendingStarts[id]].sessionId == id)
    && (forall b <- s.boots :: b < s.nextBoot && s.boots[b].sessionId in s.pendingStarts
                               && s.pendingStarts[s.boots[b].sessionId] == b)
  }

  ghost predicate BootsFindNoEntry(s: State) {
    forall b <- s.boots :: !s.boots[b].installed && !s.boots[b].settled ==> s.boots[b].sessionId !in s.sessions
  }

  ghost predicate ListenersMatchFlags(s: State) {
    && (forall k <- s.listeners :: s.listeners[k] <= 1)
    && (forall id <- s.sessions :: s.sessions[id].socket in s.listeners
                                   && (s.sessions[id].listenerRegistered <==> s.listeners[s.sessions[id].socket] == 1))
    && (forall id, other | id in s.sessions && other in s.sessions ::
          s.sessions[id].socket == s.sessions[other].socket ==> id == other)
  }

  ghost predicate Inv(s: State) {
    PendingIsUnfinishedBoot(s) && BootsFindNoEntry(s) && ListenersMatchFlags(s)
  }

  lemma RegisteredKeepsListeners(s: State, sessionId: string, socket: Socket)
    requires ListenersMatchFlags(s)
    ensures ListenersMatchFlags(Registered(s, sessionId, socket))
  {
  }

  lemma InstalledKeepsListeners(s: State, boot: BootId, socket: Socket, leaseToken: string)
    requires ListenersMatchFlags(s) && boot in s.boots && socket !in s.listeners
    ensures ListenersMatchFlags(Installed(s, boot, socket, leaseToken))
  {
    var sessionId := s.boots[boot].sessionId;
    var bare := s.(boots := s.boots[boot := s.boots[boot].(installed := true)],
                    sessions := s.sessions[sessionId := Managed(socket, false, leaseToken)],
                    listeners := s.listeners[socket := 0]);
    assert ListenersMatchFlags(bare);
    RegisteredKeepsListeners(bare, sessionId, socket);
  }

  lemma StepKeepsListeners(s: State, step: Step)
    requires ListenersMatchFlags(s) && Enabled(s, step)
    ensures ListenersMatchFlags(Next(s, step))
  {
    match step
    case Start(id) => if id in s.sessions { RegisteredKeepsListeners(s, id, s.sessions[id].socket); }
    case Install(boot, socket, leaseToken) => InstalledKeepsListeners(s, boot, socket, leaseToken);
    case Register(id, socket) => RegisteredKeepsListeners(s, id, socket);
    case _ =>
  }

  lemma StepKeepsPending(s: State, step: Step)
    requires PendingIsUnfinishedBoot(s) && Enabled(s, step)
    ensures PendingIsUnfinishedBoot(Next(s, step))
  {
  }

  lemma StepKeepsBoots(s: State, step: Step)
    requires PendingIsUnfinishedBoot(s) && BootsFindNoEntry(s) && Enabled(s, step)
    ensures BootsFindNoEntry(Next(s, step))
  {
  }

  lemma StepKeepsInv(s: State, step: Step)
    requires Inv(s) && Enabled(s, step)
    ensures Inv(Next(s, step))
  {
    StepKeepsListeners(s, step);
    StepKeepsPending(s, step);
    StepKeepsBoots(s, step);
  }

  lemma {:induction false} RunsKeepInv(states: seq<State>, steps: seq<Step>, i: nat)
    requires IsRun(states, steps) && i < |states|
    ensures Inv(states[i])
  {
    if i > 0 {
      RunsKeepInv(states, steps, i - 1);
      StepKeepsInv(states[i - 1], steps[i - 1]);
    }
  }

  /** Under every interleaving: one boot in flight per session, no `sessions.set` over an existing entry,
      and no socket with a second message listener. */
  lemma AtMostOneBootAndOneListener(states: seq<State>, steps: seq<Step>, i: nat)
    requires IsRun(states, steps) && i < |states|
    ensures forall b, c | b in states[i].boots && c in states[i].boots ::
              states[i].boots[b].sessionId == states[i].boots[c].sessionId ==> b == c
    ensures i < |steps| && steps[i].Install? ==> states[i].boots[steps[i].boot].sessionId !in states[i].sessions
    ensures forall socket :: ListenerCount(states[i], socket) <= 1
  {
    RunsKeepInv(states, steps, i);
  }

  /** A socket that is the session's current one after it was installed does carry its listener. */
  lemma InstalledSocketsListen(states: seq<State>, steps: seq<Step>, i: nat, sessionId: string)
    requires IsRun(states, steps) && i < |states| && sessionId in states[i].sessions
    ensures states[i].sessions[sessionId].listenerRegistered
    ensures ListenerCount(states[i], states[i].sessions[sessionId].socket) == 1
  {
    RunsKeepInv(states, steps, i);
    EntriesAreRegistered(states, steps, i);
  }

  lemma {:induction false} EntriesAreRegistered(states: seq<State>, steps: seq<Step>, i: nat)
    requires IsRun(states, steps) && i < |states|
    ensures forall id <- states[i].sessions :: states[i].sessions[id].listenerRegistered
  {
    if i > 0 {
      EntriesAreRegistered(states, steps, i - 1);
      assert Enabled(states[i - 1], steps[i - 1]) && states[i] == Next(states[i - 1], steps[i - 1]);
    }
  }

  // ---------------------------------------------------------------- a boot from its start to its end

  /** A start that finds neither a pending one nor a socket records a boot under a new name, and nothing else. */
  lemma StartRecordsItsBoot(states: seq<State>, steps: seq<Step>, i: nat, sessionId: string)
    requires IsRun(states, steps) && i < |steps| && steps[i] == Start(sessionId)
    requires sessionId !in states[i].pendingStarts && sessionId !in states[i].sessions
    ensures var s, boot := states[i], states[i].nextBoot;
            && boot !in s.boots
            && states[i + 1] == State(s.sessions, s.pendingStarts[sessionId := boot],
                                      s.boots[boot := Boot(sessionId, false, false)], s.listeners, boot + 1)
  {
    RunsKeepInv(states, steps, i);
    assert states[i + 1] == Next(states[i], steps[i]);
  }

  /** A start that finds a pending one changes nothing; one that finds a socket without a listener adds one. */
  lemma OtherStartsRecordNothing(s: State, sessionId: string)
    requires sessionId in s.pendingStarts || sessionId in s.sessions
    ensures var next := Next(s, Start(sessionId));
            && next.pendingStarts == s.pendingStarts && next.boots == s.boots && next.nextBoot == s.nextBoot
            && (sessionId in s.pendingStarts ==> next == s)
            && (sessionId !in s.pendingStarts ==>
                  var managed := s.sessions[sessionId];
                  next == if managed.listenerRegistered then s
                          else s.(sessions := s.sessions[sessionId := managed.(listenerRegistered := true)],
                                  listeners := s.listeners[managed.socket := ListenerCount(s, managed.socket) + 1]))
  {
  }

  /** Until the `finally` of a start, whatever happens, its boot is the pending one of its session, so that every
      other start of the session joins it. */
  lemma {:induction false} StartsJoinUntilTheFinally(
    states: seq<State>, steps: seq<Step>, i: nat, n: nat, sessionId: string)
    requires IsRun(states, steps) && i < n <= |steps| && steps[i] == Start(sessionId)
    requires sessionId !in states[i].pendingStarts && sessionId !in states[i].sessions
    requires forall m | i < m < n :: steps[m] != Finish(states[i].nextBoot)
    ensures var boot := states[i].nextBoot;
            && boot in states[n].boots && states[n].boots[boot].sessionId == sessionId
            && sessionId in states[n].pendingStarts && states[n].pendingStarts[sessionId] == boot
    decreases n
  {
    if n == i + 1 {
      StartRecordsItsBoot(states, steps, i, sessionId);
    } else {
      StartsJoinUntilTheFinally(states, steps, i, n - 1, sessionId);
      RunsKeepInv(states, steps, n - 1);
      PendingStaysPending(states[n - 1], steps[n - 1], sessionId, states[i].nextBoot);
    }
  }

  lemma PendingStaysPending(s: State, step: Step, sessionId: string, boot: BootId)
    requires Inv(s) && Enabled(s, step) && step != Finish(boot)
    requires boot in s.boots && s.boots[boot].sessionId == sessionId
    requires sessionId in s.pendingStarts && s.pendingStarts[sessionId] == boot
    ensures var next := Next(s, step);
            && boot in next.boots && next.boots[boot].sessionId == sessionId
            && sessionId in next.pendingStarts && next.pendingStarts[sessionId] == boot
  {
  }

  /** Start, settle and `finally` of a boot that fails before its socket leave no trace, so that the next start of the
      session boots again. */
  lemma FailedBootsLeaveNoTrace(s: State, sessionId: string)
    requires Inv(s) && sessionId !in s.pendingStarts && sessionId !in s.sessions
    ensures var started := Next(s, Start(sessionId));
            Enabled(started, Settle(s.nextBoot))
            && var settled := Next(started, Settle(s.nextBoot));
               Enabled(settled, Finish(s.nextBoot))
               && Next(settled, Finish(s.nextBoot)) == s.(nextBoot := s.nextBoot + 1)
  {
    var boot := s.nextBoot;
    assert boot !in s.boots;
    var settled := Next(Next(s, Start(sessionId)), Settle(boot));
    assert settled.boots - {boot} == s.boots;
    assert settled.pendingStarts - {sessionId} == s.pendingStarts;
  }

  /** An installed socket is the session's, with its lease token and one listener; all other sessions, and the boots
      in flight, are as they were. */
  lemma InstallLeaves(s: State, boot: BootId, socket: Socket, leaseToken: string)
    requires Enabled(s, Install(boot, socket, leaseToken))
    ensures var sessionId := s.boots[boot].sessionId;
            Next(s, Install(boot, socket, leaseToken))
            == s.(sessions := s.sessions[sessionId := Managed(socket, true, leaseToken)],
                  listeners := s.listeners[socket := 1],
                  boots := s.boots[boot := s.boots[boot].(installed := true)])
  {
    var sessionId := s.boots[boot].sessionId;
    assert s.sessions[sessionId := Managed(socket, false, leaseToken)][sessionId := Managed(socket, true, leaseToken)]
        == s.sessions[sessionId := Managed(socket, true, leaseToken)];
    assert s.listeners[socket := 0][socket := 1] == s.listeners[socket := 1];
  }

  /** A dropped session is gone, and only that one. */
  lemma DropLeaves(s: State, sessionId: string)
    ensures var next := Next(s, Drop(sessionId));
            && sessionId !in next.sessions
            && next == s.(sessions := next.sessions)
            && forall id :: id != sessionId ==> (id in next.sessions <==> id in s.sessions)
                                                && (id in s.sessions ==> next.sessions[id] == s.sessions[id])
  {
  }

  /** A registration on the current socket of a session without a listener adds exactly one; any other adds none. */
  lemma RegistrationLeaves(s: State, sessionId: string, socket: Socket)
    ensures var fitting := sessionId in s.sessions && s.sessions[sessionId].socket == socket
                           && !s.sessions[sessionId].listenerRegistered;
            Next(s, Register(sessionId, socket))
            == if !fitting then s
               else s.(sessions := s.sessions[sessionId := s.sessions[sessionId].(listenerRegistered := true)],
                       listeners := s.listeners[socket := ListenerCount(s, socket) + 1])
  {
  }
}
