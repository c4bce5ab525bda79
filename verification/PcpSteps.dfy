/**
  What each event does, exactly: to the entry and to the record of any endpoint, to the
  future of any request, to the channel it brings, and to what the client is told.
*/
module PcpSteps {
  import opened Options
  import opened PcpState
  import opened PcpInvariants
  import opened PcpTheorems

  /** The record of an endpoint with the answer that an event brings; a first answer stays. */
  function WithAnswer(ev: Event, c: Connection): Connection {
    match ev
    case OnAnswer(_, accept, _) => if c.local.None? then c.(local := Some(accept)) else c
    case OnResponse(_, accept) => if c.remote.None? then c.(remote := Some(accept)) else c
    case _ => c
  }

  /** Both sides accepted, or one rejected. */
  predicate Decisive(c: Connection) {
    (c.local == Some(true) && c.remote == Some(true)) || c.local == Some(false) || c.remote == Some(false)
  }

  /** The answer that an event brings gets through: it was written, or it is the other
      side's first. */
  predicate Counts(s: State, ev: Event) {
    || (ev.OnAnswer? && ev.e in s.pending && ev.e in s.manager && ev.writeOk)
    || (ev.OnResponse? && (ev.e in s.client ==> s.client[ev.e].remote.None?))
  }

  /** The event decides the connection of its endpoint. */
  predicate Settles(s: State, ev: Event) {
    Counts(s, ev) && ev.e in s.pending && ev.e in s.client && Decisive(WithAnswer(ev, s.client[ev.e]))
  }

  /** A tie that the pending entry of `e` loses, to a device that is not connected. */
  predicate LostTie(s: State, ev: Event, e: Id) {
    && ev.OnIncoming? && ev.listening && ev.request.Some? && ev.request.value.0 == e
    && !(e in s.client && s.client[e] == Connection(None, None, true))
    && e in s.pending && s.pending[e].nonce <= ev.request.value.1
  }

  /** The event makes the connection of `e` fail: it is disconnected, loses a tie, or its
      answer cannot be written. */
  predicate FailsFor(s: State, ev: Event, e: Id) {
    || ev == OnDisconnect(e)
    || LostTie(s, ev, e)
    || (ev.OnAnswer? && ev.e == e && e in s.pending && (e !in s.manager || !ev.writeOk))
  }

  // ---------------------------------------------------------------- entries

  /** The event takes the entry of `d` away. */
  predicate Removes(s: State, ev: Event, d: Id)
    requires d in s.pending
  {
    || FailsFor(s, ev, d)
    || (Settles(s, ev) && ev.e == d)
    || ev == OnSuccess(d, false)
    || (ev.OnFailure? && ev.e == d && s.pending[d].channel.Some? && SameChannel(ev.channel, s.pending[d].channel.value))
    || (ev.OnIncoming? && ev.listening && ev.request.None? && d == "")
  }

  /** The entry of `d` after a step: the one put in, none, the old one with a key in place of
      its channel, or the old one. */
  predicate EntryAfter(s: State, ev: Event, t: State, d: Id) {
    if Inserted(s, ev).Some? && Inserted(s, ev).value.0 == d then
      d in t.pending && t.pending[d] == Inserted(s, ev).value.1
    else if d !in s.pending || Removes(s, ev, d) then
      d !in t.pending
    else
      d in t.pending && t.pending[d] ==
        if ev == OnSuccess(d, true) then s.pending[d].(channel := None, ukey2 := true, result := None) else s.pending[d]
  }

  lemma RequestEntries(s: State, ev: Event, d: Id)
    requires ev.OnRequest?
    ensures EntryAfter(s, ev, Next(s, ev).value, d)
  {
    RequestInserts(s, ev);
    if Refused(s, ev) {
      RequestRefused(s, ev);
    } else {
      RequestGoesOn(s, ev);
      var u := s.(created := s.created + 1, calls := s.calls + 1);
      FailInitiationPending(u, ev.e, Some(ev.attempt.channel), EndpointIoError, Some(s.calls));
    }
  }

  lemma LoseTiePending(s: State, e: Id)
    requires e in s.pending && LoseTie(s, e).Some?
    ensures LoseTie(s, e).value.pending == s.pending - {e}
  {
    var p := s.pending[e];
    var t := FailInitiation(s, e, p.channel, EndpointIoError, p.result);
    FailInitiationPending(s, e, p.channel, EndpointIoError, p.result);
    ErasePending(t, e);
    assert t.pending - {e} == t.pending;
  }

  lemma BreakTiePending(s: State, e: Id, nonce: int, c: Channel)
    requires !BreakTie(s, e, nonce, c).Crash?
    ensures BreakTie(s, e, nonce, c).state.pending == if e in s.pending && s.pending[e].nonce <= nonce then s.pending - {e} else s.pending
  {
    if e in s.pending && s.pending[e].nonce == nonce {
      LoseTiePending(CloseChannel(s, Some(c)), e);
    } else if e in s.pending && s.pending[e].nonce < nonce {
      LoseTiePending(s, e);
    }
  }

  lemma IncomingRequestPending(s: State, c: Channel, e: Id, nonce: int, welcome: bool)
    requires IncomingRequest(s, c, e, nonce, welcome).Some?
    ensures var t := IncomingRequest(s, c, e, nonce, welcome).value;
            if IsConnected(s, e) then t.pending == s.pending
            else
              var rest := if e in s.pending && s.pending[e].nonce <= nonce then s.pending - {e} else s.pending;
              t.pending == if welcome && (e !in s.pending || s.pending[e].nonce < nonce)
                           then rest[e := Pending(nonce, true, None, Some(c), false)] else rest
  {
    if !IsConnected(s, e) {
      BreakTiePending(s, e, nonce, c);
      BreakTieStartsNothing(s, e, nonce, c);
    }
  }

  lemma IncomingEntries(s: State, ev: Event, d: Id)
    requires ev.OnIncoming? && Next(s, ev).Some?
    ensures EntryAfter(s, ev, Next(s, ev).value, d)
  {
    var g, t := s.(created := s.created + 1), Next(s, ev);
    if ev.listening && ev.request.None? {
      FailInitiationPending(g, "", Some(ev.channel), Error, None);
    } else if ev.listening {
      assert t == IncomingRequest(g, ev.channel, ev.request.value.0, ev.request.value.1, ev.allowed && ev.typeOk);
      IncomingRequestPending(g, ev.channel, ev.request.value.0, ev.request.value.1, ev.allowed && ev.typeOk);
    }
  }

  /** Handing over: the key takes the channel's place, and an unknown endpoint becomes known. */
  lemma HandOverIs(s: State, e: Id)
    requires e in s.pending && s.pending[e].channel.Some?
    ensures var t := HandOver(s, e);
            && t.pending == s.pending[e := s.pending[e].(channel := None, ukey2 := true, result := None)]
            && t.client == (if e in s.client then s.client else s.client[e := Connection(None, None, false)])
            && t.reports == s.reports && t.closed == s.closed
  {
  }

  /** The callback of a handshake fails the entry of its endpoint. */
  predicate FailsHandshake(s: State, ev: Event) {
    && (ev.OnSuccess? || ev.OnFailure?) && ev.e in s.pending && s.pending[ev.e].channel.Some?
    && (if ev.OnSuccess? then !ev.hasKey else SameChannel(ev.channel, s.pending[ev.e].channel.value))
  }

  predicate HandsOn(s: State, ev: Event) {
    ev.OnSuccess? && ev.hasKey && ev.e in s.pending && s.pending[ev.e].channel.Some?
  }

  lemma FailedHandshakeIs(s: State, ev: Event)
    requires FailsHandshake(s, ev)
    ensures Next(s, ev) == Some(FailInitiation(s, ev.e, s.pending[ev.e].channel, EndpointIoError, s.pending[ev.e].result))
  {
  }

  lemma IdleCallback(s: State, ev: Event)
    requires (ev.OnSuccess? || ev.OnFailure?) && Next(s, ev).Some? && !FailsHandshake(s, ev) && !HandsOn(s, ev)
    ensures Next(s, ev) == Some(s) && (ev.e in s.pending ==> ev.OnFailure?)
  {
  }

  lemma FailedHandshakeEntries(s: State, ev: Event, d: Id)
    requires FailsHandshake(s, ev)
    ensures EntryAfter(s, ev, Next(s, ev).value, d)
  {
    FailedHandshakeIs(s, ev);
    FailInitiationPending(s, ev.e, s.pending[ev.e].channel, EndpointIoError, s.pending[ev.e].result);
  }

  lemma HandOverEntries(s: State, ev: Event, d: Id)
    requires HandsOn(s, ev)
    ensures EntryAfter(s, ev, Next(s, ev).value, d)
  {
    HandOverIs(s, ev.e);
  }

  lemma EncryptionEntries(s: State, ev: Event, d: Id)
    requires (ev.OnSuccess? || ev.OnFailure?) && Next(s, ev).Some?
    ensures EntryAfter(s, ev, Next(s, ev).value, d)
  {
    if FailsHandshake(s, ev) {
      FailedHandshakeEntries(s, ev, d);
    } else if HandsOn(s, ev) {
      HandOverEntries(s, ev, d);
    } else {
      IdleCallback(s, ev);
    }
  }

  /** Recording an answer. */
  lemma InformedIs(s: State, ev: Event)
    requires ev.OnAnswer? || ev.OnResponse?
    ensures var u := Informed(s, ev);
            && u == s.(client := u.client)
            && u.client == (if ev.e in s.client then s.client[ev.e := WithAnswer(ev, s.client[ev.e])] else s.client)
            && (IsAccepted(u, ev.e) || IsRejected(u, ev.e) <==> ev.e in s.client && Decisive(WithAnswer(ev, s.client[ev.e])))
  {
    var u := Informed(s, ev);
    if ev.e in s.client {
      assert u.client == s.client[ev.e := WithAnswer(ev, s.client[ev.e])];
    }
  }

  /** An answer removes the entry of its endpoint if it decides or fails, and no other. */
  lemma AnsweredEntry(s: State, ev: Event, t: State, d: Id)
    requires ev.OnAnswer? || ev.OnResponse?
    requires t.pending == if Settles(s, ev) || FailsFor(s, ev, ev.e) then s.pending - {ev.e} else s.pending
    ensures EntryAfter(s, ev, t, d)
  {
    assert d in s.pending ==> (Removes(s, ev, d) <==> d == ev.e && (Settles(s, ev) || FailsFor(s, ev, ev.e)));
  }

  lemma AnswerEntries(s: State, ev: Event, d: Id)
    requires (ev.OnAnswer? || ev.OnResponse?) && Next(s, ev).Some?
    ensures EntryAfter(s, ev, Next(s, ev).value, d)
  {
    InformedIs(s, ev);
    if Counts(s, ev) {
      EvaluatePending(Informed(s, ev), ev.e);
    } else if ev.OnAnswer? {
      ErasePending(s, ev.e);
    }
    AnsweredEntry(s, ev, Next(s, ev).value, d);
  }

  lemma StepEntries(s: State, ev: Event, d: Id)
    requires Next(s, ev).Some?
    ensures EntryAfter(s, ev, Next(s, ev).value, d)
  {
    match ev
    case OnRequest(_, _, _, _, _, _) => RequestEntries(s, ev, d);
    case OnIncoming(_, _, _, _, _) => IncomingEntries(s, ev, d);
    case OnSuccess(_, _) => EncryptionEntries(s, ev, d);
    case OnFailure(_, _) => EncryptionEntries(s, ev, d);
    case OnAnswer(_, _, _) => AnswerEntries(s, ev, d);
    case OnResponse(_, _) => AnswerEntries(s, ev, d);
    case OnDisconnect(e) => ErasePending(s, e);
    case _ =>
  }

  /** In every run, what every step does to the entry of every endpoint. */
  lemma EntriesExactly(r: Run, i: nat, d: Id)
    requires IsRun(r) && i < |r.events|
    ensures EntryAfter(r.states[i], r.events[i], r.states[i + 1], d)
  {
    assert IsStep(r.states[i], r.events[i], r.states[i + 1]);
    StepEntries(r.states[i], r.events[i], d);
  }

  // ---------------------------------------------------------------- records and reports

  /** The endpoint an event is about. */
  function Subject(ev: Event): Id {
    match ev
    case OnRequest(e, _, _, _, _, _) => e
    case OnIncoming(_, _, Some((e, _)), _, _) => e
    case OnIncoming(_, _, None, _, _) => ""
    case OnSuccess(e, _) => e
    case OnFailure(e, _) => e
    case OnAnswer(e, _, _) => e
    case OnResponse(e, _) => e
    case OnDisconnect(e) => e
    case OnUnregister(e) => e
    case OnClientGone(e) => e
  }

  function Record(s: State, e: Id): Option<Connection> {
    if e in s.client then Some(s.client[e]) else None
  }

  /** The client has `e`, and not as a connected endpoint with a clean record. */
  predicate Undecided(s: State, e: Id) {
    e in s.client && s.client[e] != Connection(None, None, true)
  }

  /** Both sides have accepted, with the answer that the event brings. */
  predicate BothAccept(s: State, ev: Event)
    requires Subject(ev) in s.client
  {
    var c := WithAnswer(ev, s.client[Subject(ev)]);
    c.local == Some(true) && c.remote == Some(true)
  }

  /** The client's record of `e` after a step. */
  function RecordAfter(s: State, ev: Event, e: Id): Option<Connection> {
    if FailsFor(s, ev, e) then if Undecided(s, e) then None else Record(s, e)
    else if ev == OnClientGone(e) then None
    else if ev == OnSuccess(e, true) && e in s.pending && e !in s.client then Some(Connection(None, None, false))
    else if (ev.OnAnswer? || ev.OnResponse?) && ev.e == e && e in s.client && Counts(s, ev) then
      if !Settles(s, ev) then Some(WithAnswer(ev, s.client[e]))
      else if BothAccept(s, ev) && e in s.manager then Some(Connection(None, None, true))
      else None
    else Record(s, e)
  }

  /** What the client is told by a step. */
  function Telling(s: State, ev: Event): seq<Report> {
    var e := Subject(ev);
    if FailsFor(s, ev, e) then if Undecided(s, e) then [Rejected(e, Error)] else []
    else if (ev.OnAnswer? || ev.OnResponse?) && Settles(s, ev) then
      if !BothAccept(s, ev) then [Rejected(e, ConnectionRejected)]
      else if e in s.manager then [Accepted(e)]
      else [Rejected(e, EndpointUnknown)]
    else []
  }

  predicate ClientAfter(s: State, ev: Event, t: State, d: Id) {
    Record(t, d) == RecordAfter(s, ev, d) && t.reports == s.reports + Telling(s, ev)
  }

  lemma FailResultTells(s: State, e: Id)
    ensures var t := FailResult(s, e);
            if Undecided(s, e) then t.client == s.client - {e} && t.reports == s.reports + [Rejected(e, Error)]
            else t.client == s.client && t.reports == s.reports
  {
    ErasePending(s, e);
  }

  lemma BreakTieTells(s: State, e: Id, nonce: int, c: Channel)
    requires !BreakTie(s, e, nonce, c).Crash?
    ensures var t := BreakTie(s, e, nonce, c).state;
            if e in s.pending && s.pending[e].nonce <= nonce && Undecided(s, e) then
              t.client == s.client - {e} && t.reports == s.reports + [Rejected(e, Error)]
            else t.client == s.client && t.reports == s.reports
  {
    if e in s.pending && s.pending[e].nonce <= nonce {
      var p, g := s.pending[e], if s.pending[e].nonce == nonce then CloseChannel(s, Some(c)) else s;
      FailInitiationReports(g, e, p.channel, EndpointIoError, p.result);
      FailResultTells(FailInitiation(g, e, p.channel, EndpointIoError, p.result), e);
    }
  }

  lemma IncomingRequestTells(s: State, c: Channel, e: Id, nonce: int, welcome: bool)
    requires IncomingRequest(s, c, e, nonce, welcome).Some?
    ensures var t := IncomingRequest(s, c, e, nonce, welcome).value;
            if !IsConnected(s, e) && e in s.pending && s.pending[e].nonce <= nonce && Undecided(s, e) then
              t.client == s.client - {e} && t.reports == s.reports + [Rejected(e, Error)]
            else t.client == s.client && t.reports == s.reports
  {
    if !IsConnected(s, e) {
      BreakTieTells(s, e, nonce, c);
    }
  }

  /** The client forgets `e` and is told of an error, or nothing happens to it. */
  predicate ForgetsOrStays(s: State, t: State, e: Id, forgets: bool) {
    if forgets then t.client == s.client - {e} && t.reports == s.reports + [Rejected(e, Error)]
    else t.client == s.client && t.reports == s.reports
  }

  lemma IncomingClientAfter(s: State, ev: Event, t: State, d: Id)
    requires ev.OnIncoming? && ForgetsOrStays(s, t, Subject(ev), LostTie(s, ev, Subject(ev)) && Undecided(s, Subject(ev)))
    ensures ClientAfter(s, ev, t, d)
  {
    assert FailsFor(s, ev, d) <==> LostTie(s, ev, d);
    assert LostTie(s, ev, d) ==> d == Subject(ev);
  }

  lemma IncomingTells(s: State, ev: Event, d: Id)
    requires ev.OnIncoming? && Next(s, ev).Some?
    ensures ClientAfter(s, ev, Next(s, ev).value, d)
  {
    var g, t := s.(created := s.created + 1), Next(s, ev);
    if ev.listening && ev.request.None? {
      FailInitiationReports(g, "", Some(ev.channel), Error, None);
    } else if ev.listening {
      assert t == IncomingRequest(g, ev.channel, ev.request.value.0, ev.request.value.1, ev.allowed && ev.typeOk);
      IncomingRequestTells(g, ev.channel, ev.request.value.0, ev.request.value.1, ev.allowed && ev.typeOk);
    }
    IncomingClientAfter(s, ev, t.value, d);
  }

  lemma RequestClientAfter(s: State, ev: Event, t: State, d: Id)
    requires ev.OnRequest? && t.client == s.client && t.reports == s.reports
    ensures ClientAfter(s, ev, t, d)
  {
  }

  lemma RequestTells(s: State, ev: Event, d: Id)
    requires ev.OnRequest?
    ensures ClientAfter(s, ev, Next(s, ev).value, d)
  {
    if Refused(s, ev) {
      RequestRefused(s, ev);
    } else {
      RequestGoesOn(s, ev);
      var u := s.(created := s.created + 1, calls := s.calls + 1);
      FailInitiationReports(u, ev.e, Some(ev.attempt.channel), EndpointIoError, Some(s.calls));
    }
    RequestClientAfter(s, ev, Next(s, ev).value, d);
  }

  lemma FailedHandshakeTells(s: State, ev: Event, d: Id)
    requires FailsHandshake(s, ev)
    ensures ClientAfter(s, ev, Next(s, ev).value, d)
  {
    FailedHandshakeIs(s, ev);
    FailInitiationReports(s, ev.e, s.pending[ev.e].channel, EndpointIoError, s.pending[ev.e].result);
  }

  lemma HandOverTells(s: State, ev: Event, d: Id)
    requires HandsOn(s, ev)
    ensures ClientAfter(s, ev, Next(s, ev).value, d)
  {
    HandOverIs(s, ev.e);
  }

  lemma EncryptionTells(s: State, ev: Event, d: Id)
    requires (ev.OnSuccess? || ev.OnFailure?) && Next(s, ev).Some?
    ensures ClientAfter(s, ev, Next(s, ev).value, d)
  {
    if FailsHandshake(s, ev) {
      FailedHandshakeTells(s, ev, d);
    } else if HandsOn(s, ev) {
      HandOverTells(s, ev, d);
    } else {
      IdleCallback(s, ev);
    }
  }

  /** Evaluating tells the client exactly what was decided. */
  lemma EvaluateTells(u: State, e: Id)
    requires Evaluate(u, e).Some?
    ensures var t := Evaluate(u, e).value;
            if e in u.pending && e in u.client && Decisive(u.client[e]) then
              if u.client[e].local == Some(true) && u.client[e].remote == Some(true) then
                if e in u.manager then t.reports == u.reports + [Accepted(e)] else t.reports == u.reports + [Rejected(e, EndpointUnknown)]
              else t.reports == u.reports + [Rejected(e, ConnectionRejected)]
            else t == u
  {
    if (IsAccepted(u, e) || IsRejected(u, e)) && e in u.pending {
      DestroyReports(Decide(u, e), u.pending[e]);
    }
  }

  lemma CountedIs(s: State, ev: Event)
    requires (ev.OnAnswer? || ev.OnResponse?) && Counts(s, ev)
    ensures Next(s, ev) == Evaluate(Informed(s, ev), ev.e) && !FailsFor(s, ev, ev.e)
    ensures Settles(s, ev) <==> ev.e in s.pending && ev.e in s.client && Decisive(WithAnswer(ev, s.client[ev.e]))
  {
  }

  /** What an evaluation leaves, in the words of the event that led to it. */
  lemma EvaluatedRecord(s: State, ev: Event, t: State, d: Id)
    requires (ev.OnAnswer? || ev.OnResponse?) && Counts(s, ev) && !FailsFor(s, ev, ev.e)
    requires var client := if ev.e in s.client then s.client[ev.e := WithAnswer(ev, s.client[ev.e])] else s.client;
             t.client == if !Settles(s, ev) then client
                         else if BothAccept(s, ev) && ev.e in s.manager then client[ev.e := Connection(None, None, true)]
                         else client - {ev.e}
    ensures Record(t, d) == RecordAfter(s, ev, d)
  {
    assert d != ev.e ==> !FailsFor(s, ev, d);
  }

  lemma EvaluatedAfter(s: State, ev: Event, u: State, t: State, d: Id)
    requires (ev.OnAnswer? || ev.OnResponse?) && Counts(s, ev) && !FailsFor(s, ev, ev.e) && Evaluate(u, ev.e) == Some(t)
    requires u == s.(client := if ev.e in s.client then s.client[ev.e := WithAnswer(ev, s.client[ev.e])] else s.client)
    ensures Record(t, d) == RecordAfter(s, ev, d)
  {
    EvaluatePending(u, ev.e);
    EvaluatedRecord(s, ev, t, d);
  }

  lemma EvaluatedTells(s: State, ev: Event, u: State, t: State)
    requires (ev.OnAnswer? || ev.OnResponse?) && Counts(s, ev) && !FailsFor(s, ev, ev.e) && Evaluate(u, ev.e) == Some(t)
    requires u == s.(client := if ev.e in s.client then s.client[ev.e := WithAnswer(ev, s.client[ev.e])] else s.client)
    ensures t.reports == s.reports + Telling(s, ev)
  {
    EvaluateTells(u, ev.e);
  }

  lemma AnswerTells(s: State, ev: Event, d: Id)
    requires (ev.OnAnswer? || ev.OnResponse?) && Counts(s, ev) && Next(s, ev).Some?
    ensures ClientAfter(s, ev, Next(s, ev).value, d)
  {
    InformedIs(s, ev);
    CountedIs(s, ev);
    EvaluatedAfter(s, ev, Informed(s, ev), Next(s, ev).value, d);
    EvaluatedTells(s, ev, Informed(s, ev), Next(s, ev).value);
  }

  lemma StepTells(s: State, ev: Event, d: Id)
    requires Next(s, ev).Some?
    ensures ClientAfter(s, ev, Next(s, ev).value, d)
  {
    match ev
    case OnRequest(_, _, _, _, _, _) => RequestTells(s, ev, d);
    case OnIncoming(_, _, _, _, _) => IncomingTells(s, ev, d);
    case OnSuccess(_, _) => EncryptionTells(s, ev, d);
    case OnFailure(_, _) => EncryptionTells(s, ev, d);
    case OnAnswer(_, _, _) => AnswerStepTells(s, ev, d);
    case OnResponse(_, _) => AnswerStepTells(s, ev, d);
    case OnDisconnect(e) => FailResultTells(s, e);
    case _ =>
  }

  lemma AnswerStepTells(s: State, ev: Event, d: Id)
    requires (ev.OnAnswer? || ev.OnResponse?) && Next(s, ev).Some?
    ensures ClientAfter(s, ev, Next(s, ev).value, d)
  {
    if Counts(s, ev) {
      AnswerTells(s, ev, d);
    } else if ev.OnAnswer? {
      FailResultTells(s, ev.e);
    }
  }

  /** In every run, what every step leaves of the client's record of every endpoint, and what
      it tells the client. */
  lemma ClientExactly(r: Run, i: nat, d: Id)
    requires IsRun(r) && i < |r.events|
    ensures ClientAfter(r.states[i], r.events[i], r.states[i + 1], d)
  {
    assert IsStep(r.states[i], r.events[i], r.states[i + 1]);
    StepTells(r.states[i], r.events[i], d);
  }

  /** In every run a connection that is disconnected, loses a tie, or cannot be answered loses
      its entry, unless the winner of the tie takes its place; and if the client had it, it is
      told of an error and forgets it. */
  lemma FailuresAreTold(r: Run, i: nat, e: Id)
    requires IsRun(r) && i < |r.events| && FailsFor(r.states[i], r.events[i], e)
    ensures var s, t := r.states[i], r.states[i + 1];
            && (e in t.pending ==> Inserted(s, r.events[i]) == Some((e, t.pending[e])))
            && (Undecided(s, e) ==> t.reports == s.reports + [Rejected(e, Error)] && e !in t.client)
  {
    EntriesExactly(r, i, e);
    ClientExactly(r, i, e);
  }

  // ---------------------------------------------------------------- futures and channels

  /** How a request ends that does not become pending. */
  function Ending(s: State, ev: Event): Option<Status>
    requires ev.OnRequest?
  {
    if ev.e in s.pending then Some(AlreadyConnectedToEndpoint)
    else if !ev.allowed then Some(OutOfOrderApiCall)
    else if !ev.known then Some(EndpointUnknown)
    else if ev.attempt.NoChannel? then Some(ev.attempt.status)
    else if !ev.writeOk then Some(EndpointIoError)
    else None
  }

  /** What the waiter of an entry is told by the event that ends the wait. */
  function Verdict(ev: Event): Status {
    match ev
    case OnSuccess(_, hasKey) => if hasKey then Success else EndpointIoError
    case OnFailure(_, _) => EndpointIoError
    case OnIncoming(_, _, Some(_), _, _) => EndpointIoError
    case _ => Error
  }

  /** The entry of the event's endpoint is taken away. */
  predicate TakesAway(s: State, ev: Event) {
    Subject(ev) in s.pending && Removes(s, ev, Subject(ev))
  }

  /** The future that a step sets, and to what. */
  function Sets(s: State, ev: Event): Option<(Future, Status)> {
    if ev.OnRequest? then
      match Ending(s, ev) case None => None case Some(status) => Some((s.calls, status))
    else
      var d := Subject(ev);
      if d in s.pending && s.pending[d].result.Some? && (TakesAway(s, ev) || ev == OnSuccess(d, true))
      then Some((s.pending[d].result.value, Verdict(ev))) else None
  }

  /** The new channel of an event is turned away: its request could not be written, or not be
      read, or lost or tied with the entry that is there. */
  function TurnedAway(s: State, ev: Event): set<Channel> {
    match ev
    case OnRequest(e, allowed, known, Obtained(c), writeOk, _) => if e !in s.pending && allowed && known && !writeOk then {c} else {}
    case OnIncoming(c, listening, None, _, _) => if listening then {c} else {}
    case OnIncoming(c, listening, Some((e, nonce)), _, _) =>
      if listening && !(e in s.client && s.client[e] == Connection(None, None, true)) && e in s.pending && s.pending[e].nonce >= nonce
      then {c} else {}
    case _ => {}
  }

  function Closes(s: State, ev: Event): set<Channel> {
    TurnedAway(s, ev) + if TakesAway(s, ev) then Elements(s.pending[Subject(ev)].channel) else {}
  }

  /** The futures and the closed channels after a step. */
  predicate EffectsAfter(s: State, ev: Event, t: State) {
    && t.closed == s.closed + Closes(s, ev)
    && (match Sets(s, ev)
        case None => t.outcome == s.outcome && t.settled == s.settled
        case Some((f, status)) => t.outcome == s.outcome[f := status] && t.settled == s.settled + multiset{f})
  }

  lemma NewFuture(s: State)
    requires Books(s)
    ensures s.calls !in s.outcome && s.calls !in s.settled
  {
    assert Settled(s.pending, s.settled, s.calls, s.calls);
    assert Told(s.settled, s.outcome, s.asked, s.closed, s.handed, s.calls);
  }

  lemma RefusalEffects(s: State, status: Status)
    requires s.calls !in s.outcome
    ensures var t := Refuse(s, status); t.closed == s.closed && t.outcome == s.outcome[s.calls := status] && t.settled == s.settled + multiset{s.calls}
  {
    assert multiset(Elements(Some(s.calls))) == multiset{s.calls};
  }

  lemma UnwrittenEffects(s: State, e: Id, c: Channel, f: Future)
    requires e !in s.pending && f !in s.outcome
    ensures var t := RequestOver(s, f, e, c, false, 0);
            t.closed == s.closed + {c} && t.outcome == s.outcome[f := EndpointIoError] && t.settled == s.settled + multiset{f}
  {
    assert multiset(Elements(Some(f))) == multiset{f};
  }

  lemma RequestEffects(s: State, ev: Event)
    requires s.calls !in s.outcome && ev.OnRequest?
    ensures EffectsAfter(s, ev, Next(s, ev).value)
  {
    assert !TakesAway(s, ev);
    if Refused(s, ev) {
      RequestRefused(s, ev);
      RefusalEffects(s, Refusal(s, ev));
    } else {
      RequestGoesOn(s, ev);
      var u := s.(created := s.created + 1, calls := s.calls + 1);
      if !ev.writeOk {
        UnwrittenEffects(u, ev.e, ev.attempt.channel, s.calls);
      }
    }
  }

  /** The futures and closed channels of `t` are those of `d`, with `c` closed besides. */
  predicate Matches(t: State, d: State, c: set<Channel>) {
    t.outcome == d.outcome && t.settled == d.settled && t.closed == d.closed + c
  }

  lemma FailResultDrops(s: State, e: Id)
    requires Unset(s, e)
    ensures Matches(FailResult(s, e), Drop(s, e, Error), {})
  {
    EraseDrops(s, e);
  }

  lemma LoseTieDrops(s: State, e: Id)
    requires Unset(s, e) && e in s.pending && LoseTie(s, e).Some?
    ensures Matches(LoseTie(s, e).value, Drop(s, e, EndpointIoError), {})
  {
    var t := Drop(s, e, EndpointIoError);
    FailInitiationDrops(s, e, EndpointIoError);
    assert e !in t.pending;
    FailResultDrops(t, e);
  }

  /** Closing one more channel first. */
  lemma ClosedFirst(s: State, e: Id, c: Channel, status: Status, t: State)
    requires Matches(t, Drop(CloseChannel(s, Some(c)), e, status), {})
    ensures Matches(t, Drop(s, e, status), {c})
  {
    var a, b := Drop(CloseChannel(s, Some(c)), e, status), Drop(s, e, status);
    assert a.closed == b.closed + {c} && a.outcome == b.outcome && a.settled == b.settled;
  }

  /** A tie closes the new channel if the entry stays or both lose, and takes the entry away
      if it loses or both do. */
  lemma BreakTieEffects(s: State, e: Id, nonce: int, c: Channel)
    requires Unset(s, e) && !BreakTie(s, e, nonce, c).Crash?
    ensures Matches(BreakTie(s, e, nonce, c).state,
                    if e in s.pending && s.pending[e].nonce <= nonce then Drop(s, e, EndpointIoError) else s,
                    if e in s.pending && s.pending[e].nonce >= nonce then {c} else {})
  {
    var t := BreakTie(s, e, nonce, c).state;
    if e in s.pending && s.pending[e].nonce == nonce {
      assert t == LoseTie(CloseChannel(s, Some(c)), e).value;
      LoseTieDrops(CloseChannel(s, Some(c)), e);
      ClosedFirst(s, e, c, EndpointIoError, t);
    } else if e in s.pending && s.pending[e].nonce < nonce {
      assert t == LoseTie(s, e).value;
      LoseTieDrops(s, e);
    }
  }

  lemma IncomingRequestEffects(s: State, c: Channel, e: Id, nonce: int, welcome: bool)
    requires Unset(s, e) && IncomingRequest(s, c, e, nonce, welcome).Some?
    ensures Matches(IncomingRequest(s, c, e, nonce, welcome).value,
                    if !IsConnected(s, e) && e in s.pending && s.pending[e].nonce <= nonce then Drop(s, e, EndpointIoError) else s,
                    if !IsConnected(s, e) && e in s.pending && s.pending[e].nonce >= nonce then {c} else {})
  {
    if !IsConnected(s, e) {
      BreakTieEffects(s, e, nonce, c);
      BreakTieStartsNothing(s, e, nonce, c);
    }
  }

  lemma UnreadableErases(s: State, c: Channel)
    ensures FailInitiation(s, "", Some(c), Error, None) == Erase(CloseChannel(s, Some(c)), "")
  {
    IdleEffects(CloseChannel(s, Some(c)), Error);
  }

  lemma UnreadableEffects(s: State, c: Channel)
    requires Unset(s, "")
    ensures Matches(FailInitiation(s, "", Some(c), Error, None), Drop(s, "", Error), {c})
  {
    var h := CloseChannel(s, Some(c));
    UnreadableErases(s, c);
    EraseDrops(h, "");
    ClosedFirst(s, "", c, Error, Erase(h, ""));
  }

  /** What taking an entry away sets and closes. */
  lemma DropSets(s: State, e: Id, status: Status)
    requires e in s.pending
    ensures var p, d := s.pending[e], Drop(s, e, status);
            && d.closed == s.closed + Elements(p.channel)
            && (if p.result.None? then d.outcome == s.outcome && d.settled == s.settled
                else d.outcome == s.outcome[p.result.value := status] && d.settled == s.settled + multiset{p.result.value})
  {
    var p := s.pending[e];
    if p.result.None? {
      assert s.settled + multiset(Elements(p.result)) == s.settled;
    } else {
      assert multiset(Elements(p.result)) == multiset{p.result.value};
    }
  }

  lemma SetsAndCloses(s: State, ev: Event)
    requires !ev.OnRequest? && ev != OnSuccess(Subject(ev), true)
    ensures !TakesAway(s, ev) ==> Sets(s, ev) == None && Closes(s, ev) == TurnedAway(s, ev)
    ensures TakesAway(s, ev) ==>
              var p := s.pending[Subject(ev)];
              && Sets(s, ev) == (if p.result.None? then None else Some((p.result.value, Verdict(ev))))
              && Closes(s, ev) == TurnedAway(s, ev) + Elements(p.channel)
  {
  }

  /** What the entry's end means for its future and its channel. */
  lemma EntryEffects(s: State, ev: Event, t: State)
    requires !ev.OnRequest? && ev != OnSuccess(Subject(ev), true)
    requires Matches(t, if TakesAway(s, ev) then Drop(s, Subject(ev), Verdict(ev)) else s, TurnedAway(s, ev))
    ensures EffectsAfter(s, ev, t)
  {
    SetsAndCloses(s, ev);
    if TakesAway(s, ev) {
      DropSets(s, Subject(ev), Verdict(ev));
    }
  }

  /** Neither the count of channels nor the order of closing matters. */
  lemma GrownMatches(s: State, t: State, e: Id, status: Status, taken: bool, c: set<Channel>)
    requires var g := s.(created := s.created + 1); Matches(t, if taken then Drop(g, e, status) else g, c)
    ensures Matches(t, if taken then Drop(s, e, status) else s, c)
  {
  }

  lemma ReadableEffects(s: State, ev: Event)
    requires Unset(s, Subject(ev)) && ev.OnIncoming? && ev.listening && ev.request.Some? && Next(s, ev).Some?
    ensures Matches(Next(s, ev).value, if TakesAway(s, ev) then Drop(s, Subject(ev), EndpointIoError) else s, TurnedAway(s, ev))
  {
    var g, t, e := s.(created := s.created + 1), Next(s, ev), ev.request.value.0;
    assert t == IncomingRequest(g, ev.channel, e, ev.request.value.1, ev.allowed && ev.typeOk);
    IncomingRequestEffects(g, ev.channel, e, ev.request.value.1, ev.allowed && ev.typeOk);
    var taken := !IsConnected(g, e) && e in g.pending && g.pending[e].nonce <= ev.request.value.1;
    assert TakesAway(s, ev) == taken;
    GrownMatches(s, t.value, e, EndpointIoError, taken, TurnedAway(s, ev));
  }

  lemma UnreadStep(s: State, ev: Event)
    requires Unset(s, Subject(ev)) && ev.OnIncoming? && ev.listening && ev.request.None? && Next(s, ev).Some?
    ensures Matches(Next(s, ev).value, if TakesAway(s, ev) then Drop(s, "", Error) else s, {ev.channel})
  {
    UnreadableEffects(s.(created := s.created + 1), ev.channel);
    GrownMatches(s, Next(s, ev).value, "", Error, true, {ev.channel});
  }

  lemma IncomingEffects(s: State, ev: Event)
    requires Unset(s, Subject(ev)) && ev.OnIncoming? && Next(s, ev).Some?
    ensures EffectsAfter(s, ev, Next(s, ev).value)
  {
    var t := Next(s, ev).value;
    if !ev.listening {
      assert t == s.(created := s.created + 1);
    } else if ev.request.Some? {
      ReadableEffects(s, ev);
      EntryEffects(s, ev, t);
    } else {
      UnreadStep(s, ev);
      EntryEffects(s, ev, t);
    }
  }

  lemma HandOverSets(s: State, e: Id)
    requires Unset(s, e) && e in s.pending && s.pending[e].channel.Some?
    ensures var p, t := s.pending[e], HandOver(s, e);
            && t.closed == s.closed
            && (if p.result.None? then t.outcome == s.outcome && t.settled == s.settled
                else t.outcome == s.outcome[p.result.value := Success] && t.settled == s.settled + multiset{p.result.value})
  {
    var p := s.pending[e];
    HandOverShape(s, e);
    if p.result.Some? {
      assert multiset(Elements(p.result)) == multiset{p.result.value};
    } else {
      assert s.settled + multiset(Elements(p.result)) == s.settled;
    }
  }

  lemma HandOverEffects(s: State, ev: Event)
    requires Unset(s, Subject(ev)) && HandsOn(s, ev)
    ensures EffectsAfter(s, ev, Next(s, ev).value)
  {
    HandOverSets(s, ev.e);
    assert !TakesAway(s, ev);
  }

  lemma FailedHandshakeEffects(s: State, ev: Event)
    requires Unset(s, Subject(ev)) && FailsHandshake(s, ev)
    ensures EffectsAfter(s, ev, Next(s, ev).value)
  {
    FailedHandshakeIs(s, ev);
    FailInitiationDrops(s, ev.e, EndpointIoError);
    EntryEffects(s, ev, Next(s, ev).value);
  }

  lemma EncryptionEffects(s: State, ev: Event)
    requires Unset(s, Subject(ev)) && (ev.OnSuccess? || ev.OnFailure?) && Next(s, ev).Some?
    ensures EffectsAfter(s, ev, Next(s, ev).value)
  {
    if HandsOn(s, ev) {
      HandOverEffects(s, ev);
    } else if FailsHandshake(s, ev) {
      FailedHandshakeEffects(s, ev);
    } else {
      IdleCallback(s, ev);
    }
  }

  lemma EvaluateEffects(s: State, u: State, e: Id)
    requires Unset(s, e) && u == s.(client := u.client) && Evaluate(u, e).Some?
    ensures Matches(Evaluate(u, e).value, if (IsAccepted(u, e) || IsRejected(u, e)) && e in s.pending then Drop(s, e, Error) else s, {})
  {
    if (IsAccepted(u, e) || IsRejected(u, e)) && e in u.pending {
      EvaluateDrops(u, e);
    }
  }

  lemma CountedEffects(s: State, ev: Event)
    requires Unset(s, Subject(ev)) && (ev.OnAnswer? || ev.OnResponse?) && Counts(s, ev) && Next(s, ev).Some?
    ensures Matches(Next(s, ev).value, if TakesAway(s, ev) then Drop(s, Subject(ev), Error) else s, {})
  {
    InformedIs(s, ev);
    CountedIs(s, ev);
    EvaluateEffects(s, Informed(s, ev), ev.e);
  }

  lemma AnswerEffects(s: State, ev: Event)
    requires Unset(s, Subject(ev)) && (ev.OnAnswer? || ev.OnResponse?) && Next(s, ev).Some?
    ensures EffectsAfter(s, ev, Next(s, ev).value)
  {
    if Counts(s, ev) {
      CountedEffects(s, ev);
    } else if ev.OnAnswer? {
      FailResultDrops(s, ev.e);
    }
    EntryEffects(s, ev, Next(s, ev).value);
  }

  lemma DisconnectEffects(s: State, e: Id)
    requires Unset(s, e)
    ensures EffectsAfter(s, OnDisconnect(e), FailResult(s, e))
  {
    FailResultDrops(s, e);
    EntryEffects(s, OnDisconnect(e), FailResult(s, e));
  }

  lemma StepEffects(s: State, ev: Event)
    requires Unset(s, Subject(ev)) && s.calls !in s.outcome && s.calls !in s.settled && Next(s, ev).Some?
    ensures EffectsAfter(s, ev, Next(s, ev).value)
  {
    match ev
    case OnRequest(_, _, _, _, _, _) => RequestEffects(s, ev);
    case OnIncoming(_, _, _, _, _) => IncomingEffects(s, ev);
    case OnSuccess(_, _) => EncryptionEffects(s, ev);
    case OnFailure(_, _) => EncryptionEffects(s, ev);
    case OnAnswer(_, _, _) => AnswerEffects(s, ev);
    case OnResponse(_, _) => AnswerEffects(s, ev);
    case OnDisconnect(e) => DisconnectEffects(s, e);
    case _ =>
  }

  lemma NothingSetTwice(s: State, e: Id)
    requires Books(s)
    ensures Unset(s, e) && s.calls !in s.outcome && s.calls !in s.settled
  {
    NewFuture(s);
    if e in s.pending && s.pending[e].result.Some? {
      EntryUnset(s, e);
    }
  }

  /** In every run, which future every step sets and to what, and which channels it closes:
      those of the entries it takes away, and a new one that it turns away. */
  lemma EffectsExactly(r: Run, i: nat)
    requires IsRun(r) && i < |r.events|
    ensures EffectsAfter(r.states[i], r.events[i], r.states[i + 1])
  {
    assert IsStep(r.states[i], r.events[i], r.states[i + 1]);
    Reachable(r, i);
    NothingSetTwice(r.states[i], Subject(r.events[i]));
    StepEffects(r.states[i], r.events[i]);
  }
}
