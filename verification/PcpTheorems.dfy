/**
  The theorems about every run of one device's connection handler.
*/
module PcpTheorems {
  import opened Options
  import opened Mediums
  import opened PcpState
  import opened PcpInvariants

  ghost predicate AlwaysKeyed(r: Run, e: Id, m: nat)
    requires m < |r.states|
  {
    forall n :: 0 <= n <= m ==> Keyed(r.states[n], e)
  }

  ghost predicate NeverOrphaned(r: Run, e: Id, m: nat)
    requires m <= |r.events| && m < |r.states|
  {
    forall n :: 0 <= n < m ==> !Orphans(r.states[n], r.events[n], e)
  }

  /** Up to any point of a run, the connection of `e` had an entry with a key whenever the
      client had registered and not decided it, if and only if no unreadable request
      removed that entry. */
  lemma {:induction false} KeyedThroughout(r: Run, e: Id, m: nat)
    requires IsRun(r) && m < |r.states|
    ensures AlwaysKeyed(r, e, m) <==> NeverOrphaned(r, e, m)
  {
    if m > 0 {
      KeyedThroughout(r, e, m - 1);
      if AlwaysKeyed(r, e, m - 1) {
        var s, ev, t := r.states[m - 1], r.events[m - 1], r.states[m];
        Reachable(r, m - 1);
        assert IsStep(s, ev, t);
        StepKeyed(s, ev, e);
        assert Keyed(t, e) <==> !Orphans(s, ev, e);
      }
    }
  }

  /** Each pending entry holds exactly one of a channel and a key, and every connection the
      client has registered but not decided has an entry with a key; for the empty id,
      exactly as long as no unreadable request removed it. */
  lemma PendingEntries(r: Run, i: nat, e: Id)
    requires IsRun(r) && i < |r.states|
    ensures e in r.states[i].pending ==> (r.states[i].pending[e].channel.Some? <==> !r.states[i].pending[e].ukey2)
    ensures e != "" ==> Keyed(r.states[i], e)
    ensures AlwaysKeyed(r, e, i) <==> NeverOrphaned(r, e, i)
  {
    Reachable(r, i);
    KeyedThroughout(r, e, i);
  }

  /** At every step boundary a channel that ever became pending is in exactly one
      place: with exactly one entry, handed over exactly once, or closed. */
  lemma ChannelConservation(r: Run, i: nat, c: Channel)
    requires IsRun(r) && i < |r.states| && c in r.states[i].entered
    ensures var s := r.states[i];
            || (Owned(s.pending, c) && s.handed[c] == 0 && c !in s.closed)
            || (!Owned(s.pending, c) && s.handed[c] == 1 && c !in s.closed)
            || (!Owned(s.pending, c) && s.handed[c] == 0 && c in s.closed)
    ensures forall e, d :: Apart(r.states[i].pending, e, d)
  {
    Reachable(r, i);
    var s := r.states[i];
    assert Accounted(s.pending, s.entered, s.closed, s.handed, c);
  }

  /** At every step boundary the future of every request so far was set exactly once,
      or was not set and is held by an entry that is still handshaking. */
  lemma NoLostWaiter(r: Run, i: nat, f: Future)
    requires IsRun(r) && i < |r.states| && f < r.states[i].calls
    ensures var s := r.states[i];
            || (s.settled[f] == 1 && !Waiting(s.pending, f))
            || (s.settled[f] == 0 && Waiting(s.pending, f))
  {
    Reachable(r, i);
    var s := r.states[i];
    assert Settled(s.pending, s.settled, s.calls, f);
    if Waiting(s.pending, f) {
      var e :| Handshaking(s.pending, e) && s.pending[e].result == Some(f);
      assert Asking(s.pending, s.settled, s.asked, s.calls, e);
    }
  }

  /** No two entries wait for the same request. */
  lemma OneWaiter(r: Run, i: nat, e: Id, d: Id)
    requires IsRun(r) && i < |r.states|
    requires var p := r.states[i].pending; e in p && d in p && p[e].result.Some? && p[e].result == p[d].result
    ensures e == d
  {
    Reachable(r, i);
    var s := r.states[i];
    assert Asking(s.pending, s.settled, s.asked, s.calls, e) && Asking(s.pending, s.settled, s.asked, s.calls, d);
    assert Apart(s.pending, e, d);
  }

  /** A request that ended reported success exactly when its own channel was handed
      over, and otherwise its channel, if it had one, is closed. */
  lemma RequestsTellTheTruth(r: Run, i: nat, f: Future)
    requires IsRun(r) && i < |r.states| && f < r.states[i].calls && f in r.states[i].settled
    ensures var s := r.states[i];
            && f in s.outcome
            && (s.outcome[f] == Success <==> f in s.asked && s.handed[s.asked[f]] == 1)
            && (s.outcome[f] != Success && f in s.asked ==> s.asked[f] in s.closed)
  {
    Reachable(r, i);
    var s := r.states[i];
    assert Told(s.settled, s.outcome, s.asked, s.closed, s.handed, f);
    if f in s.asked {
      assert Accounted(s.pending, s.entered, s.closed, s.handed, s.asked[f]);
    }
  }

  /** The entry that an event puts in: a request whose frame was written, for an endpoint
      with no entry; or the request of a device that is welcome and not connected, for an
      endpoint with no entry or one with a lower nonce. */
  function Inserted(s: State, ev: Event): Option<(Id, Pending)> {
    match ev
    case OnRequest(e, allowed, known, Obtained(c), writeOk, nonce) =>
      if e !in s.pending && allowed && known && writeOk then Some((e, Pending(nonce, false, Some(s.calls), Some(c), false))) else None
    case OnIncoming(c, listening, Some((e, nonce)), allowed, typeOk) =>
      if && listening && allowed && typeOk && !(e in s.client && s.client[e] == Connection(None, None, true))
         && (e !in s.pending || s.pending[e].nonce < nonce)
      then Some((e, Pending(nonce, true, None, Some(c), false))) else None
    case _ => None
  }

  /** A step from `s` to `t` starts a job exactly for the entry that it puts in, on that
      entry's channel. */
  predicate StartsFor(s: State, ev: Event, t: State) {
    match Inserted(s, ev)
    case None => t.jobs == s.jobs
    case Some((e, p)) => t.jobs == s.jobs + [(e, p.channel)] && e in t.pending && t.pending[e] == p
  }

  lemma RequestOverInserts(s: State, f: Future, e: Id, c: Channel, writeOk: bool, nonce: int)
    requires e !in s.pending
    ensures var t := RequestOver(s, f, e, c, writeOk, nonce);
            if writeOk then t.jobs == s.jobs + [(e, Some(c))] && e in t.pending && t.pending[e] == Pending(nonce, false, Some(f), Some(c), false)
            else t.jobs == s.jobs
  {
  }

  lemma RequestInserts(s: State, ev: Event)
    requires ev.OnRequest?
    ensures StartsFor(s, ev, Next(s, ev).value)
  {
    if Refused(s, ev) {
      RequestRefused(s, ev);
    } else {
      RequestGoesOn(s, ev);
      var u := s.(created := s.created + 1, calls := s.calls + 1);
      RequestOverInserts(u, s.calls, ev.e, ev.attempt.channel, ev.writeOk, ev.nonce);
    }
  }

  lemma FailInitiationStartsNothing(s: State, e: Id, c: Option<Channel>, status: Status, f: Option<Future>)
    ensures FailInitiation(s, e, c, status, f).jobs == s.jobs
  {
  }

  lemma FailResultStartsNothing(s: State, e: Id)
    ensures FailResult(s, e).jobs == s.jobs && e !in FailResult(s, e).pending
  {
  }

  lemma BreakTieStartsNothing(s: State, e: Id, nonce: int, c: Channel)
    requires !BreakTie(s, e, nonce, c).Crash?
    ensures BreakTie(s, e, nonce, c).state.jobs == s.jobs
    ensures BreakTie(s, e, nonce, c).Proceed? <==> e !in s.pending || s.pending[e].nonce < nonce
    ensures BreakTie(s, e, nonce, c).Proceed? ==> e !in BreakTie(s, e, nonce, c).state.pending
  {
    if e in s.pending && s.pending[e].nonce <= nonce {
      var p, g := s.pending[e], if s.pending[e].nonce == nonce then CloseChannel(s, Some(c)) else s;
      FailInitiationStartsNothing(g, e, p.channel, EndpointIoError, p.result);
      FailResultStartsNothing(FailInitiation(g, e, p.channel, EndpointIoError, p.result), e);
    }
  }

  lemma IncomingRequestInserts(s: State, c: Channel, e: Id, nonce: int, welcome: bool)
    requires IncomingRequest(s, c, e, nonce, welcome).Some?
    ensures var t := IncomingRequest(s, c, e, nonce, welcome).value;
            if welcome && !(e in s.client && s.client[e] == Connection(None, None, true)) && (e !in s.pending || s.pending[e].nonce < nonce) then
              t.jobs == s.jobs + [(e, Some(c))] && e in t.pending && t.pending[e] == Pending(nonce, true, None, Some(c), false)
            else t.jobs == s.jobs
  {
    if !IsConnected(s, e) {
      BreakTieStartsNothing(s, e, nonce, c);
    }
  }

  lemma IncomingInserts(s: State, ev: Event)
    requires ev.OnIncoming? && Next(s, ev).Some?
    ensures StartsFor(s, ev, Next(s, ev).value)
  {
    var g, t := s.(created := s.created + 1), Next(s, ev);
    if ev.listening && ev.request.None? {
      FailInitiationStartsNothing(g, "", Some(ev.channel), Error, None);
    } else if ev.listening {
      assert t == IncomingRequest(g, ev.channel, ev.request.value.0, ev.request.value.1, ev.allowed && ev.typeOk);
      IncomingRequestInserts(g, ev.channel, ev.request.value.0, ev.request.value.1, ev.allowed && ev.typeOk);
    }
  }

  lemma EvaluateStartsNothing(s: State, e: Id)
    requires Evaluate(s, e).Some?
    ensures Evaluate(s, e).value.jobs == s.jobs
  {
  }

  lemma OthersStartNothing(s: State, ev: Event)
    requires !ev.OnRequest? && !ev.OnIncoming? && Next(s, ev).Some?
    ensures Next(s, ev).value.jobs == s.jobs
  {
    match ev
    case OnAnswer(e, accept, writeOk) =>
      if e in s.pending && e in s.manager && writeOk {
        EvaluateStartsNothing(LocalAnswer(s, e, accept), e);
      }
    case OnResponse(e, accept) =>
      if e !in s.client || s.client[e].remote.None? {
        EvaluateStartsNothing(RemoteAnswer(s, e, accept), e);
      }
    case _ =>
  }

  lemma StepInserts(s: State, ev: Event)
    requires Next(s, ev).Some?
    ensures StartsFor(s, ev, Next(s, ev).value)
  {
    if ev.OnRequest? {
      RequestInserts(s, ev);
    } else if ev.OnIncoming? {
      IncomingInserts(s, ev);
    } else {
      OthersStartNothing(s, ev);
    }
  }

  /** In every run a step starts an encryption job exactly if the event puts an entry in: the
      key was absent, from the start or because the entry there had the lower nonce and was
      removed; and the job runs on the channel just created. */
  lemma FreshInsertion(r: Run, i: nat)
    requires IsRun(r) && i < |r.events|
    ensures StartsFor(r.states[i], r.events[i], r.states[i + 1])
    ensures Inserted(r.states[i], r.events[i]).Some? ==>
              var c := Inserted(r.states[i], r.events[i]).value.1.channel.value;
              c.id == r.states[i].created && c !in r.states[i].entered
  {
    assert IsStep(r.states[i], r.events[i], r.states[i + 1]);
    StepInserts(r.states[i], r.events[i]);
    Reachable(r, i);
  }

  // ---------------------------------------------------------------- decisions

  /** The state with the answer that an event brings recorded. */
  function Informed(s: State, ev: Event): State {
    match ev
    case OnAnswer(e, accept, _) => LocalAnswer(s, e, accept)
    case OnResponse(e, accept) => RemoteAnswer(s, e, accept)
    case _ => s
  }

  /** A report to the client is right: accepted only after both accepts and with the
      channel encrypted, rejected only after a reject, unknown only without a channel,
      and an error only for a lost tie, a disconnection or an answer that did not get out. */
  predicate Justified(s: State, ev: Event, t: State, r: Report) {
    var u := Informed(s, ev);
    match r
    case Accepted(e) => IsAccepted(u, e) && IsConnected(t, e) && e in t.manager && t.manager[e] in t.encrypted
    case Rejected(e, ConnectionRejected) => IsRejected(u, e) && e !in t.client
    case Rejected(e, EndpointUnknown) => IsAccepted(u, e) && e !in t.client && e !in t.manager
    case Rejected(e, Error) => e !in t.client && Fails(s, ev, e)
    case _ => false
  }

  predicate Fails(s: State, ev: Event, e: Id) {
    match ev
    case OnDisconnect(d) => d == e
    case OnIncoming(_, _, Some((d, nonce)), _, _) => d == e && e in s.pending && s.pending[e].nonce <= nonce
    case OnAnswer(d, _, writeOk) => d == e && (e !in s.manager || !writeOk)
    case _ => false
  }

  /** From `s` to `t` the client was told nothing, or one thing, rightly. */
  predicate Reports(s: State, ev: Event, t: State) {
    || t.reports == s.reports
    || (|t.reports| == |s.reports| + 1 && s.reports <= t.reports && Justified(s, ev, t, t.reports[|s.reports|]))
  }

  lemma DestroyReports(s: State, p: Pending)
    ensures var t := Destroy(s, p);
            t.reports == s.reports && t.client == s.client && t.manager == s.manager && t.encrypted == s.encrypted
  {
  }

  lemma FailInitiationReports(s: State, e: Id, c: Option<Channel>, status: Status, f: Option<Future>)
    ensures var t := FailInitiation(s, e, c, status, f);
            t.reports == s.reports && t.client == s.client && t.manager == s.manager && t.encrypted == s.encrypted
  {
  }

  /** Evaluating leaves things as they are, or makes the one report that is due. */
  predicate Decided(u: State, e: Id, t: State) {
    || (t.reports == u.reports && (e !in u.pending || (!IsAccepted(u, e) && !IsRejected(u, e))))
    || (&& t.reports == u.reports + [Accepted(e)]
        && IsAccepted(u, e) && IsConnected(t, e) && e in t.manager && t.manager[e] in t.encrypted)
    || (&& t.reports == u.reports + [Rejected(e, EndpointUnknown)]
        && IsAccepted(u, e) && e !in t.client && e !in t.manager)
    || (t.reports == u.reports + [Rejected(e, ConnectionRejected)] && IsRejected(u, e) && e !in t.client)
  }

  lemma EvaluateDecides(u: State, e: Id)
    requires Evaluate(u, e).Some?
    ensures Decided(u, e, Evaluate(u, e).value)
  {
    if (IsAccepted(u, e) || IsRejected(u, e)) && e in u.pending {
      DestroyReports(Decide(u, e), u.pending[e]);
    }
  }

  lemma DecidedReports(s: State, ev: Event, e: Id, t: State)
    requires (ev.OnAnswer? || ev.OnResponse?) && Decided(Informed(s, ev), e, t)
    ensures Reports(s, ev, t)
  {
  }

  lemma FailResultReports(s: State, e: Id)
    ensures var t := FailResult(s, e);
            t.reports == s.reports || (t.reports == s.reports + [Rejected(e, Error)] && e !in t.client)
  {
  }

  /** A tie leaves things as they are, or tells that the pending connection was lost. */
  predicate TieTold(s: State, e: Id, nonce: int, t: State) {
    || t.reports == s.reports
    || (t.reports == s.reports + [Rejected(e, Error)] && e !in t.client && e in s.pending && s.pending[e].nonce <= nonce)
  }

  lemma BreakTieReports(s: State, e: Id, nonce: int, c: Channel)
    requires !BreakTie(s, e, nonce, c).Crash?
    ensures TieTold(s, e, nonce, BreakTie(s, e, nonce, c).state)
  {
    if e in s.pending && s.pending[e].nonce <= nonce {
      var p, g := s.pending[e], if s.pending[e].nonce == nonce then CloseChannel(s, Some(c)) else s;
      FailInitiationReports(g, e, p.channel, EndpointIoError, p.result);
      FailResultReports(FailInitiation(g, e, p.channel, EndpointIoError, p.result), e);
    }
  }

  lemma IncomingRequestReports(s: State, c: Channel, e: Id, nonce: int, welcome: bool)
    requires IncomingRequest(s, c, e, nonce, welcome).Some?
    ensures TieTold(s, e, nonce, IncomingRequest(s, c, e, nonce, welcome).value)
  {
    if !IsConnected(s, e) {
      BreakTieReports(s, e, nonce, c);
    }
  }

  lemma IncomingReports(s: State, ev: Event)
    requires ev.OnIncoming? && Next(s, ev).Some?
    ensures Reports(s, ev, Next(s, ev).value)
  {
    var g, t := s.(created := s.created + 1), Next(s, ev);
    if ev.listening && ev.request.None? {
      FailInitiationReports(g, "", Some(ev.channel), Error, None);
    } else if ev.listening {
      var (e, nonce) := ev.request.value;
      assert t == IncomingRequest(g, ev.channel, e, nonce, ev.allowed && ev.typeOk);
      IncomingRequestReports(g, ev.channel, e, nonce, ev.allowed && ev.typeOk);
      TieToldReports(s, ev, t.value);
    }
  }

  lemma TieToldReports(s: State, ev: Event, t: State)
    requires ev.OnIncoming? && ev.request.Some? && TieTold(s, ev.request.value.0, ev.request.value.1, t)
    ensures Reports(s, ev, t)
  {
  }

  lemma EncryptionReports(s: State, ev: Event)
    requires (ev.OnSuccess? || ev.OnFailure?) && Next(s, ev).Some?
    ensures Next(s, ev).value.reports == s.reports
  {
    if ev.e in s.pending {
      FailInitiationReports(s, ev.e, s.pending[ev.e].channel, EndpointIoError, s.pending[ev.e].result);
    }
  }

  lemma AnswerReports(s: State, ev: Event)
    requires ev.OnAnswer? && Next(s, ev).Some?
    ensures Reports(s, ev, Next(s, ev).value)
  {
    if ev.e in s.pending && ev.e in s.manager && ev.writeOk {
      EvaluateDecides(Informed(s, ev), ev.e);
      DecidedReports(s, ev, ev.e, Next(s, ev).value);
    } else {
      FailResultReports(s, ev.e);
    }
  }

  lemma ResponseReports(s: State, ev: Event)
    requires ev.OnResponse? && Next(s, ev).Some?
    ensures Reports(s, ev, Next(s, ev).value)
  {
    if ev.e !in s.client || s.client[ev.e].remote.None? {
      EvaluateDecides(Informed(s, ev), ev.e);
      DecidedReports(s, ev, ev.e, Next(s, ev).value);
    }
  }

  lemma StepReports(s: State, ev: Event)
    requires Next(s, ev).Some?
    ensures Reports(s, ev, Next(s, ev).value)
  {
    match ev
    case OnIncoming(_, _, _, _, _) => IncomingReports(s, ev);
    case OnSuccess(_, _) => EncryptionReports(s, ev);
    case OnFailure(_, _) => EncryptionReports(s, ev);
    case OnAnswer(_, _, _) => AnswerReports(s, ev);
    case OnResponse(_, _) => ResponseReports(s, ev);
    case OnDisconnect(e) => FailResultReports(s, e);
    case _ =>
  }

  /** An answer that decides a pending connection: it was written, or it is the other
      side's first. */
  predicate Decides(s: State, ev: Event) {
    && (|| (ev.OnAnswer? && ev.e in s.manager && ev.writeOk)
        || (ev.OnResponse? && (ev.e in s.client ==> s.client[ev.e].remote.None?)))
    && ev.e in s.pending
    && (IsAccepted(Informed(s, ev), ev.e) || IsRejected(Informed(s, ev), ev.e))
  }

  lemma DecidingStep(s: State, ev: Event)
    requires Next(s, ev).Some? && Decides(s, ev)
    ensures |Next(s, ev).value.reports| == |s.reports| + 1
  {
    var u := Informed(s, ev);
    assert Next(s, ev) == Evaluate(u, ev.e);
    EvaluateDecides(u, ev.e);
  }

  /** In every run a step tells the client nothing or one thing, and that rightly; and the
      step that decides a connection does tell. */
  lemma DecisionsAreRight(r: Run, i: nat)
    requires IsRun(r) && i < |r.events|
    ensures Reports(r.states[i], r.events[i], r.states[i + 1])
    ensures Decides(r.states[i], r.events[i]) ==> |r.states[i + 1].reports| == |r.states[i].reports| + 1
  {
    assert IsStep(r.states[i], r.events[i], r.states[i + 1]);
    StepReports(r.states[i], r.events[i]);
    if Decides(r.states[i], r.events[i]) {
      DecidingStep(r.states[i], r.events[i]);
    }
  }

  // ---------------------------------------------------------------- null dereferences

  /** The guard under which a handler dereferences a null pointer. */
  predicate Traps(s: State, ev: Event) {
    match ev
    case OnSuccess(e, _) => e in s.pending && s.pending[e].ukey2
    case OnFailure(e, _) => e in s.pending && s.pending[e].ukey2
    case OnIncoming(_, listening, Some((e, nonce)), _, _) =>
      listening && !IsConnected(s, e) && e in s.pending && s.pending[e].ukey2 && s.pending[e].nonce <= nonce
    case OnAnswer(e, accept, writeOk) =>
      e in s.manager && writeOk && e in s.pending && !s.pending[e].ukey2 && IsAccepted(LocalAnswer(s, e, accept), e)
    case OnResponse(e, accept) =>
      e in s.pending && !s.pending[e].ukey2 && e in s.client && s.client[e].remote.None? && IsAccepted(RemoteAnswer(s, e, accept), e)
    case _ => false
  }

  lemma IncomingTraps(s: State, c: Channel, listening: bool, request: Option<(Id, int)>, allowed: bool, typeOk: bool)
    requires OneOf(s)
    ensures Incoming(s, c, listening, request, allowed, typeOk).None? <==> Traps(s, OnIncoming(c, listening, request, allowed, typeOk))
  {
  }

  lemma StepTraps(s: State, ev: Event)
    requires OneOf(s)
    ensures Next(s, ev).None? <==> Traps(s, ev)
  {
    if ev.OnIncoming? {
      IncomingTraps(s, ev.channel, ev.listening, ev.request, ev.allowed, ev.typeOk);
    }
  }

  /** In every reachable state a handler dereferences a null pointer exactly under its
      guard; and a missing key is only ever used for an endpoint whose earlier
      connection the client still holds, or whose entry an unreadable request removed. */
  lemma TrapsExactly(r: Run, i: nat, ev: Event)
    requires IsRun(r) && i < |r.states|
    ensures Next(r.states[i], ev).None? <==> Traps(r.states[i], ev)
    ensures (ev.OnAnswer? || ev.OnResponse?) && Next(r.states[i], ev).None? ==>
              (ev.e in r.states[i].client && r.states[i].client[ev.e].connected) || !NeverOrphaned(r, ev.e, i)
  {
    Reachable(r, i);
    var s := r.states[i];
    StepTraps(s, ev);
    if ev.OnAnswer? || ev.OnResponse? {
      KeyedThroughout(r, ev.e, i);
      assert AlwaysKeyed(r, ev.e, i) ==> Keyed(s, ev.e);
    }
  }

  /** A failure callback removes the pending entry exactly when its channel compares
      equal to the entry's; the comparison looks at name and medium, not identity. */
  lemma StaleFailure(r: Run, i: nat, e: Id, c: Channel)
    requires IsRun(r) && i < |r.states| && Handshaking(r.states[i].pending, e)
    ensures var s := r.states[i];
            var next := EncryptionFailure(s, e, c);
            && next.Some?
            && (SameChannel(c, s.pending[e].channel.value) ==> next.value == Drop(s, e, EndpointIoError))
            && (!SameChannel(c, s.pending[e].channel.value) ==> next.value == s)
  {
    Reachable(r, i);
    var s := r.states[i];
    DropKeeps(s, e, EndpointIoError);
    FailInitiationDrops(s, e, EndpointIoError);
  }

  // ---------------------------------------------------------------- connected endpoints

  /** If `e` is connected, its record is clean and nothing is pending for it. */
  predicate AtRest(s: State, e: Id) {
    e in s.client && s.client[e].connected ==> e !in s.pending && s.client[e] == Connection(None, None, true)
  }

  /** A request that gets its channel and its frame out, or a response, for a connected
      endpoint. */
  predicate Disturbs(s: State, ev: Event, e: Id) {
    && e in s.client && s.client[e].connected
    && match ev
       case OnRequest(d, allowed, known, attempt, writeOk, _) => d == e && allowed && known && attempt.Obtained? && writeOk
       case OnResponse(d, _) => d == e
       case _ => false
  }

  lemma RequestRest(s: State, ev: Event, e: Id)
    requires AtRest(s, e) && ev.OnRequest?
    ensures AtRest(Next(s, ev).value, e) <==> !Disturbs(s, ev, e)
  {
    RequestPending(s, ev);
    if Refused(s, ev) {
      RequestRefused(s, ev);
    } else {
      RequestGoesOn(s, ev);
      var u := s.(created := s.created + 1, calls := s.calls + 1);
      FailInitiationPending(u, ev.e, Some(ev.attempt.channel), EndpointIoError, Some(s.calls));
    }
  }

  lemma BreakTieRest(s: State, e: Id, nonce: int, c: Channel, d: Id)
    requires AtRest(s, d) && !BreakTie(s, e, nonce, c).Crash?
    ensures AtRest(BreakTie(s, e, nonce, c).state, d)
  {
    BreakTieClient(s, e, nonce, c);
    if e in s.pending && s.pending[e].nonce <= nonce {
      var p, g := s.pending[e], if s.pending[e].nonce == nonce then CloseChannel(s, Some(c)) else s;
      FailInitiationPending(g, e, p.channel, EndpointIoError, p.result);
      ErasePending(FailInitiation(g, e, p.channel, EndpointIoError, p.result), e);
    }
  }

  lemma IncomingRequestRest(s: State, c: Channel, e: Id, nonce: int, welcome: bool, d: Id)
    requires AtRest(s, d) && IncomingRequest(s, c, e, nonce, welcome).Some?
    ensures AtRest(IncomingRequest(s, c, e, nonce, welcome).value, d)
  {
    if !IsConnected(s, e) {
      BreakTieRest(s, e, nonce, c, d);
      BreakTieClient(s, e, nonce, c);
    }
  }

  lemma IncomingRest(s: State, ev: Event, e: Id)
    requires AtRest(s, e) && ev.OnIncoming? && Next(s, ev).Some?
    ensures AtRest(Next(s, ev).value, e)
  {
    var g, t := s.(created := s.created + 1), Next(s, ev);
    if ev.listening && ev.request.None? {
      FailInitiationPending(g, "", Some(ev.channel), Error, None);
    } else if ev.listening {
      assert t == IncomingRequest(g, ev.channel, ev.request.value.0, ev.request.value.1, ev.allowed && ev.typeOk);
      IncomingRequestRest(g, ev.channel, ev.request.value.0, ev.request.value.1, ev.allowed && ev.typeOk, e);
    }
  }

  lemma HandOverRest(s: State, d: Id, e: Id)
    requires AtRest(s, e) && d in s.pending && s.pending[d].channel.Some?
    ensures AtRest(HandOver(s, d), e)
  {
  }

  lemma EncryptionRest(s: State, ev: Event, e: Id)
    requires AtRest(s, e) && (ev.OnSuccess? || ev.OnFailure?) && Next(s, ev).Some?
    ensures AtRest(Next(s, ev).value, e)
  {
    if ev.e in s.pending && s.pending[ev.e].channel.Some? {
      if ev.OnSuccess? && ev.hasKey {
        HandOverRest(s, ev.e, e);
      } else {
        FailInitiationPending(s, ev.e, s.pending[ev.e].channel, EndpointIoError, s.pending[ev.e].result);
      }
    }
  }

  lemma EvaluateRest(u: State, d: Id, e: Id)
    requires AtRest(u, e) && Evaluate(u, d).Some?
    ensures AtRest(Evaluate(u, d).value, e)
  {
    EvaluatePending(u, d);
  }

  lemma AnswerRest(s: State, ev: Event, e: Id)
    requires AtRest(s, e) && ev.OnAnswer? && Next(s, ev).Some?
    ensures AtRest(Next(s, ev).value, e)
  {
    if ev.e in s.pending && ev.e in s.manager && ev.writeOk {
      EvaluateRest(LocalAnswer(s, ev.e, ev.accept), ev.e, e);
    } else {
      ErasePending(s, ev.e);
    }
  }

  lemma ResponseRest(s: State, ev: Event, e: Id)
    requires AtRest(s, e) && ev.OnResponse? && Next(s, ev).Some?
    ensures AtRest(Next(s, ev).value, e) <==> !Disturbs(s, ev, e)
  {
    if Disturbs(s, ev, e) {
      EvaluatePending(RemoteAnswer(s, e, ev.accept), e);
    } else if ev.e !in s.client || s.client[ev.e].remote.None? {
      EvaluateRest(RemoteAnswer(s, ev.e, ev.accept), ev.e, e);
    }
  }

  lemma StepRest(s: State, ev: Event, e: Id)
    requires AtRest(s, e) && Next(s, ev).Some?
    ensures AtRest(Next(s, ev).value, e) <==> !Disturbs(s, ev, e)
  {
    match ev
    case OnRequest(_, _, _, _, _, _) => RequestRest(s, ev, e);
    case OnIncoming(_, _, _, _, _) => IncomingRest(s, ev, e);
    case OnSuccess(_, _) => EncryptionRest(s, ev, e);
    case OnFailure(_, _) => EncryptionRest(s, ev, e);
    case OnAnswer(_, _, _) => AnswerRest(s, ev, e);
    case OnResponse(_, _) => ResponseRest(s, ev, e);
    case OnDisconnect(d) => ErasePending(s, d);
    case _ =>
  }

  ghost predicate AlwaysAtRest(r: Run, e: Id, m: nat)
    requires m < |r.states|
  {
    forall n :: 0 <= n <= m ==> AtRest(r.states[n], e)
  }

  ghost predicate NeverDisturbed(r: Run, e: Id, m: nat)
    requires m <= |r.events| && m < |r.states|
  {
    forall n :: 0 <= n < m ==> !Disturbs(r.states[n], r.events[n], e)
  }

  /** Up to any point of a run, `e` had a clean record and nothing pending whenever it was
      connected, if and only if no request for it got out and no response for it came while
      it was. */
  lemma {:induction false} RestThroughout(r: Run, e: Id, m: nat)
    requires IsRun(r) && m < |r.states|
    ensures AlwaysAtRest(r, e, m) <==> NeverDisturbed(r, e, m)
  {
    if m > 0 {
      RestThroughout(r, e, m - 1);
      if AlwaysAtRest(r, e, m - 1) {
        var s, ev, t := r.states[m - 1], r.events[m - 1], r.states[m];
        assert IsStep(s, ev, t);
        StepRest(s, ev, e);
        assert AtRest(t, e) <==> !Disturbs(s, ev, e);
      }
    }
  }

  // ---------------------------------------------------------------- missing handshakes

  /** A response for an endpoint the client is connected to. */
  predicate Belated(s: State, ev: Event) {
    ev.OnResponse? && ev.e in s.client && s.client[ev.e].connected
  }

  /** A connected endpoint has no answer of the other side on record. */
  predicate Settles(client: map<Id, Connection>, e: Id) {
    e in client && client[e].connected ==> client[e].remote.None?
  }

  lemma IncomingClient(s: State, ev: Event)
    requires ev.OnIncoming? && Next(s, ev).Some?
    ensures var t := Next(s, ev).value; forall e :: e in t.client ==> e in s.client && t.client[e] == s.client[e]
  {
    var g, t := s.(created := s.created + 1), Next(s, ev);
    if ev.listening && ev.request.None? {
      FailInitiationPending(g, "", Some(ev.channel), Error, None);
    } else if ev.listening {
      var (e, nonce) := ev.request.value;
      assert t == IncomingRequest(g, ev.channel, e, nonce, ev.allowed && ev.typeOk);
      if !IsConnected(g, e) {
        BreakTieClient(g, e, nonce, ev.channel);
      }
    }
  }

  lemma BreakTieClient(s: State, e: Id, nonce: int, c: Channel)
    requires !BreakTie(s, e, nonce, c).Crash?
    ensures var t := BreakTie(s, e, nonce, c).state; forall d :: d in t.client ==> d in s.client && t.client[d] == s.client[d]
  {
    if e in s.pending && s.pending[e].nonce <= nonce {
      var p, g := s.pending[e], if s.pending[e].nonce == nonce then CloseChannel(s, Some(c)) else s;
      FailInitiationPending(g, e, p.channel, EndpointIoError, p.result);
      FailResultClient(FailInitiation(g, e, p.channel, EndpointIoError, p.result), e);
    }
  }

  lemma FailResultClient(s: State, e: Id)
    ensures FailResult(s, e).client == s.client || FailResult(s, e).client == s.client - {e}
  {
    ErasePending(s, e);
  }

  lemma EvaluateSettles(u: State, d: Id, e: Id)
    requires Settles(u.client, e) && Evaluate(u, d).Some?
    ensures Settles(Evaluate(u, d).value.client, e)
  {
    EvaluatePending(u, d);
  }

  lemma AnswerSettles(s: State, ev: Event, e: Id)
    requires Settles(s.client, e) && ev.OnAnswer? && Next(s, ev).Some?
    ensures Settles(Next(s, ev).value.client, e)
  {
    if ev.e in s.pending && ev.e in s.manager && ev.writeOk {
      EvaluateSettles(LocalAnswer(s, ev.e, ev.accept), ev.e, e);
    } else {
      ErasePending(s, ev.e);
    }
  }

  lemma ResponseSettles(s: State, ev: Event, e: Id)
    requires Settles(s.client, e) && ev.OnResponse? && !Belated(s, ev) && Next(s, ev).Some?
    ensures Settles(Next(s, ev).value.client, e)
  {
    if ev.e !in s.client || s.client[ev.e].remote.None? {
      EvaluateSettles(RemoteAnswer(s, ev.e, ev.accept), ev.e, e);
    }
  }

  lemma StepSettles(s: State, ev: Event, e: Id)
    requires Settles(s.client, e) && !Belated(s, ev) && Next(s, ev).Some?
    ensures Settles(Next(s, ev).value.client, e)
  {
    match ev
    case OnRequest(_, _, _, _, _, _) => RequestPending(s, ev);
    case OnIncoming(_, _, _, _, _) => IncomingClient(s, ev);
    case OnSuccess(d, hasKey) =>
      if d in s.pending { FailInitiationPending(s, d, s.pending[d].channel, EndpointIoError, s.pending[d].result); }
    case OnFailure(d, c) =>
      if d in s.pending { FailInitiationPending(s, d, s.pending[d].channel, EndpointIoError, s.pending[d].result); }
    case OnAnswer(_, _, _) => AnswerSettles(s, ev, e);
    case OnResponse(_, _) => ResponseSettles(s, ev, e);
    case OnDisconnect(d) => ErasePending(s, d);
    case _ =>
  }

  lemma {:induction false} AlwaysSettled(r: Run, i: nat, e: Id)
    requires IsRun(r) && i < |r.states|
    requires forall j :: 0 <= j < i ==> !Belated(r.states[j], r.events[j])
    ensures Settles(r.states[i].client, e)
  {
    if i > 0 {
      AlwaysSettled(r, i - 1, e);
      assert IsStep(r.states[i - 1], r.events[i - 1], r.states[i]);
      StepSettles(r.states[i - 1], r.events[i - 1], e);
    }
  }

  /** In a run in which no response comes for an endpoint the client is connected to,
      EvaluateConnectionResult never uses a missing handshake - nor for the empty id, as
      long as no unreadable request removed its entry. */
  lemma NoMissingHandshake(r: Run, i: nat, ev: Event)
    requires IsRun(r) && i < |r.states| && (ev.OnAnswer? || ev.OnResponse?)
    requires !Belated(r.states[i], ev) && forall j :: 0 <= j < i ==> !Belated(r.states[j], r.events[j])
    requires ev.e != "" || NeverOrphaned(r, ev.e, i)
    ensures Next(r.states[i], ev).Some?
  {
    AlwaysSettled(r, i, ev.e);
    TrapsExactly(r, i, ev);
  }

  // ---------------------------------------------------------------- what does go wrong

  /** A device that asked for endpoint `e` with nonce 1 and finished its handshake. */
  function AfterHandOver(e: Id): Run {
    var c := Channel(0, "A", BLUETOOTH);
    var s1 := Request(Initial(), e, true, true, Obtained(c), true, 1);
    Run([Initial(), s1, HandOver(s1, e)],
        [OnRequest(e, true, true, Obtained(c), true, 1), OnSuccess(e, true)])
  }

  lemma AfterHandOverRuns(e: Id)
    ensures IsRun(AfterHandOver(e))
    ensures var s := AfterHandOver(e).states[2];
            && s.pending == map[e := Pending(1, false, None, None, true)]
            && s.client == map[e := Connection(None, None, false)]
            && e in s.manager && s.encrypted == {} && s.contexts == {} && s.reports == [] && s.created == 1 && s.calls == 1
  {
    var r := AfterHandOver(e);
    assert IsStep(r.states[0], r.events[0], r.states[1]);
    assert IsStep(r.states[1], r.events[1], r.states[2]);
  }

  /** A device that took an incoming connection from endpoint `e` with nonce 1, and finished
      the handshake. */
  function AfterIncoming(e: Id): Run {
    var c := Channel(0, "A", BLUETOOTH);
    var s1 := StartJob(Emplace(Initial().(created := 1), e, Pending(1, true, None, Some(c), false)), e);
    Run([Initial(), s1, HandOver(s1, e)], [OnIncoming(c, true, Some((e, 1)), true, true), OnSuccess(e, true)])
  }

  lemma AfterIncomingRuns(e: Id)
    ensures IsRun(AfterIncoming(e))
    ensures var s := AfterIncoming(e).states[2];
            && s.pending == map[e := Pending(1, true, None, None, true)]
            && s.client == map[e := Connection(None, None, false)]
            && e in s.manager && s.encrypted == {} && s.contexts == {} && s.reports == [] && s.created == 1
  {
    var r := AfterIncoming(e);
    assert IsStep(r.states[0], r.events[0], r.states[1]);
    assert IsStep(r.states[1], r.events[1], r.states[2]);
  }

  /** Why the empty id is the exception: an incoming connection whose request cannot be
      read removes the entry with that id, and leaves the client with an undecided
      connection that has no handshake. */
  lemma EmptyIdLosesItsEntry()
    ensures var r := AfterIncoming("");
            var ev := OnIncoming(Channel(1, "B", BLUETOOTH), true, None, true, true);
            && IsRun(r) && Enabled(r.states[2], ev) && Orphans(r.states[2], ev, "")
            && Next(r.states[2], ev).Some? && !Keyed(Next(r.states[2], ev).value, "")
  {
    AfterIncomingRuns("");
    var s := AfterIncoming("").states[2];
    FailInitiationPending(s.(created := s.created + 1), "", Some(Channel(1, "B", BLUETOOTH)), Error, None);
  }

  /** An incoming request with a higher nonce, after our own handshake finished but
      before the connection is decided, dereferences the null channel. */
  lemma TieBreakAfterHandOverTraps()
    ensures var s := AfterHandOver("A").states[2];
            var ev := OnIncoming(Channel(1, "B", BLUETOOTH), true, Some(("A", 2)), true, true);
            IsRun(AfterHandOver("A")) && Enabled(s, ev) && Next(s, ev).None?
  {
    AfterHandOverRuns("A");
    var s := AfterHandOver("A").states[2];
    var ev := OnIncoming(Channel(1, "B", BLUETOOTH), true, Some(("A", 2)), true, true);
    TrapsExactly(AfterHandOver("A"), 2, ev);
    assert Traps(s, ev);
  }

  lemma ExtendRun(r: Run, ev: Event, t: State)
    requires IsRun(r) && IsStep(r.states[|r.events|], ev, t)
    ensures IsRun(Run(r.states + [t], r.events + [ev]))
  {
    var states, events := r.states + [t], r.events + [ev];
    assert states[0] == r.states[0];
    forall i | 0 <= i < |events| ensures IsStep(states[i], events[i], states[i + 1]) {
      SameStep(r, ev, t, states, events, i);
    }
  }

  lemma SameStep(r: Run, ev: Event, t: State, states: seq<State>, events: seq<Event>, i: nat)
    requires IsRun(r) && IsStep(r.states[|r.events|], ev, t)
    requires states == r.states + [t] && events == r.events + [ev] && i < |events|
    ensures IsStep(states[i], events[i], states[i + 1])
  {
    if i < |r.events| {
      assert states[i] == r.states[i] && events[i] == r.events[i] && states[i + 1] == r.states[i + 1];
    } else {
      assert states[i] == r.states[i] && events[i] == ev && states[i + 1] == t;
    }
  }

  lemma WithKeyDecides(s: State, e: Id)
    requires e in s.pending ==> s.pending[e].ukey2
    ensures Evaluate(s, e).Some?
  {
  }

  lemma AcceptedByBoth(s: State, e: Id)
    requires s.pending == map[e := Pending(1, false, None, None, true)] && e in s.manager
    requires s.client == map[e := Connection(Some(true), Some(true), false)]
    ensures Evaluate(s, e).Some?
    ensures var t := Evaluate(s, e).value;
            t.pending == map[] && t.client == map[e := Connection(None, None, true)] && t.manager == s.manager && t.created == s.created
  {
    WithKeyDecides(s, e);
    EvaluatePending(s, e);
  }

  /** The other side accepts. */
  lemma Answered() returns (r: Run)
    ensures IsRun(r) && |r.events| == 3
    ensures var s := r.states[3];
            && s.pending == map["A" := Pending(1, false, None, None, true)] && "A" in s.manager && s.created == 1
            && s.client == map["A" := Connection(None, Some(true), false)]
  {
    AfterHandOverRuns("A");
    r := AfterHandOver("A");
    var t := RemoteAnswer(r.states[2], "A", true);
    assert IsStep(r.states[2], OnResponse("A", true), t);
    ExtendRun(r, OnResponse("A", true), t);
    r := Run(r.states + [t], r.events + [OnResponse("A", true)]);
  }

  /** Both sides accept, and the connection is established. */
  lemma Connect() returns (r: Run)
    ensures IsRun(r) && |r.events| == 4
    ensures var s := r.states[4];
            s.pending == map[] && s.client == map["A" := Connection(None, None, true)] && "A" in s.manager && s.created == 1
  {
    r := Answered();
    var s := r.states[3];
    var u := LocalAnswer(s, "A", true);
    AcceptedByBoth(u, "A");
    var t := Evaluate(u, "A").value;
    assert IsStep(s, OnAnswer("A", true, true), t);
    ExtendRun(r, OnAnswer("A", true, true), t);
    r := Run(r.states + [t], r.events + [OnAnswer("A", true, true)]);
  }

  /** A belated accept is enough: from any reachable state in which `e` is connected and
      nothing is pending, an accepting response, then an incoming connection from `e`, then
      accepting that one, uses a handshake that is not there. The response leaves an
      answer on the record, so that `e` no longer counts as connected. */
  lemma BelatedAcceptIsFatal(r: Run, e: Id, c: Channel, nonce: int) returns (q: Run)
    requires IsRun(r)
    requires var s := r.states[|r.events|]; IsConnected(s, e) && e !in s.pending && e in s.manager && c.id == s.created
    ensures IsRun(q) && |q.events| == |r.events| + 2 && q.events[..|r.events|] == r.events
    ensures q.events[|r.events|] == OnResponse(e, true) && Belated(r.states[|r.events|], OnResponse(e, true))
    ensures q.events[|r.events| + 1] == OnIncoming(c, true, Some((e, nonce)), true, true)
    ensures Next(q.states[|q.events|], OnAnswer(e, true, true)).None?
  {
    var s := r.states[|r.events|];
    var t := RemoteAnswer(s, e, true);
    assert IsStep(s, OnResponse(e, true), t);
    ExtendRun(r, OnResponse(e, true), t);
    q := Run(r.states + [t], r.events + [OnResponse(e, true)]);
    var ev := OnIncoming(c, true, Some((e, nonce)), true, true);
    var g := t.(created := t.created + 1);
    var u := StartJob(Emplace(g, e, Pending(nonce, true, None, Some(c), false)), e);
    assert BreakTie(g, e, nonce, c) == Proceed(g);
    assert IsStep(t, ev, u);
    ExtendRun(q, ev, u);
    q := Run(q.states + [u], q.events + [ev]);
    assert IsAccepted(LocalAnswer(u, e, true), e) && !u.pending[e].ukey2;
  }

  /** So there is such a run. */
  lemma MissingHandshakeIsReachable() returns (r: Run)
    ensures IsRun(r) && |r.events| == 6 && Next(r.states[6], OnAnswer("A", true, true)).None?
    ensures forall i :: 4 <= i < 6 ==> !r.events[i].OnRequest?
  {
    r := Connect();
    r := BelatedAcceptIsFatal(r, "A", Channel(1, "A", BLUETOOTH), 2);
    assert r.events[4].OnResponse? && r.events[5].OnIncoming?;
  }
}
