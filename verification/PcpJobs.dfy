/**
  The encryption jobs of a handler, and the channels they hold by a raw pointer: when a
  failure callback reads a channel that is no longer there.
*/
module PcpJobs {
  import opened Options
  import opened PcpState
  import opened PcpInvariants

  /** A channel that is gone: it became pending, and neither an entry nor the channel manager
      owns it any more. */
  ghost predicate Destroyed(s: State, c: Channel) {
    c in s.entered && !Owned(s.pending, c) && forall d :: d in s.manager ==> s.manager[d] != c
  }

  // ---------------------------------------------------------------- jobs and entries

  /** The entry an event may put in. */
  function Target(ev: Event): Option<(Id, Channel)> {
    match ev
    case OnRequest(e, _, _, Obtained(c), _, _) => Some((e, c))
    case OnIncoming(c, _, Some((e, _)), _, _) => Some((e, c))
    case _ => None
  }

  /** No job was started. */
  predicate Idles(s: State, t: State) {
    t.jobs == s.jobs && t.entered == s.entered
  }

  /** A job was started for a new entry of `e` over `c`. */
  predicate Starts(s: State, t: State, e: Id, c: Channel) {
    && t.jobs == s.jobs + [(e, Some(c))] && t.entered == s.entered + {c}
    && e in t.pending && t.pending[e].channel == Some(c)
  }

  /** The entry of `d`, if it is handshaking, was so before, over the same channel. */
  predicate Stays(s: State, t: State, d: Id) {
    Handshaking(t.pending, d) ==> Handshaking(s.pending, d) && t.pending[d].channel == s.pending[d].channel
  }

  /** What a step does to jobs and to the entry of `d`. */
  predicate Moves(s: State, ev: Event, t: State, d: Id) {
    || (Idles(s, t) && Stays(s, t, d))
    || (Target(ev).Some? && Starts(s, t, Target(ev).value.0, Target(ev).value.1) && (d == Target(ev).value.0 || Stays(s, t, d)))
  }

  /** Nothing was handed over or given up by the channel manager. */
  predicate Holds(s: State, t: State) {
    t.manager == s.manager && t.handed == s.handed
  }

  lemma FailInitiationIdles(s: State, e: Id, c: Option<Channel>, status: Status, f: Option<Future>, d: Id)
    ensures var t := FailInitiation(s, e, c, status, f); Idles(s, t) && Holds(s, t) && Stays(s, t, d) && e !in t.pending
  {
    FailInitiationPending(s, e, c, status, f);
  }

  lemma FailResultIdles(s: State, e: Id, d: Id)
    ensures var t := FailResult(s, e); Idles(s, t) && Holds(s, t) && Stays(s, t, d) && e !in t.pending
  {
    ErasePending(s, e);
  }

  lemma EvaluateIdles(s: State, e: Id, d: Id)
    requires Evaluate(s, e).Some?
    ensures Idles(s, Evaluate(s, e).value) && Holds(s, Evaluate(s, e).value) && Stays(s, Evaluate(s, e).value, d)
  {
    if (IsAccepted(s, e) || IsRejected(s, e)) && e in s.pending {
      DecideShape(s, e);
      DestroyIdles(Decide(s, e), s.pending[e]);
    }
  }

  lemma DestroyIdles(s: State, p: Pending)
    ensures var t := Destroy(s, p); Idles(s, t) && Holds(s, t) && t.pending == s.pending
  {
  }

  lemma BreakTieIdles(s: State, e: Id, nonce: int, c: Channel, d: Id)
    requires !BreakTie(s, e, nonce, c).Crash?
    ensures var tie := BreakTie(s, e, nonce, c);
            Idles(s, tie.state) && Holds(s, tie.state) && Stays(s, tie.state, d) && (tie.Proceed? ==> e !in tie.state.pending)
  {
    if e in s.pending && s.pending[e].nonce <= nonce {
      var p, g := s.pending[e], if s.pending[e].nonce == nonce then CloseChannel(s, Some(c)) else s;
      var h := FailInitiation(g, e, p.channel, EndpointIoError, p.result);
      FailInitiationIdles(g, e, p.channel, EndpointIoError, p.result, d);
      FailResultIdles(h, e, d);
    }
  }

  lemma IncomingRequestMoves(s: State, c: Channel, e: Id, nonce: int, welcome: bool, d: Id)
    requires IncomingRequest(s, c, e, nonce, welcome).Some?
    ensures var t := IncomingRequest(s, c, e, nonce, welcome).value;
            Holds(s, t) && ((Idles(s, t) && Stays(s, t, d)) || (Starts(s, t, e, c) && (d == e || Stays(s, t, d))))
  {
    if !IsConnected(s, e) {
      BreakTieIdles(s, e, nonce, c, d);
    }
  }

  lemma IncomingMoves(s: State, ev: Event, d: Id)
    requires ev.OnIncoming? && Next(s, ev).Some?
    ensures Moves(s, ev, Next(s, ev).value, d) && Holds(s, Next(s, ev).value)
  {
    var g, t := s.(created := s.created + 1), Next(s, ev);
    if ev.listening && ev.request.None? {
      FailInitiationIdles(g, "", Some(ev.channel), Error, None, d);
    } else if ev.listening {
      assert t == IncomingRequest(g, ev.channel, ev.request.value.0, ev.request.value.1, ev.allowed && ev.typeOk);
      IncomingRequestMoves(g, ev.channel, ev.request.value.0, ev.request.value.1, ev.allowed && ev.typeOk, d);
    }
  }

  lemma RequestOverMoves(s: State, f: Future, e: Id, c: Channel, writeOk: bool, nonce: int, d: Id)
    requires e !in s.pending
    ensures var t := RequestOver(s, f, e, c, writeOk, nonce);
            Holds(s, t) && ((Idles(s, t) && Stays(s, t, d)) || (Starts(s, t, e, c) && (d == e || Stays(s, t, d))))
  {
    if !writeOk {
      FailInitiationIdles(s, e, Some(c), EndpointIoError, Some(f), d);
    }
  }

  lemma RequestMoves(s: State, ev: Event, d: Id)
    requires ev.OnRequest?
    ensures Moves(s, ev, Next(s, ev).value, d) && Holds(s, Next(s, ev).value)
  {
    if Refused(s, ev) {
      RequestRefused(s, ev);
    } else {
      RequestGoesOn(s, ev);
      var u := s.(created := s.created + 1, calls := s.calls + 1);
      RequestOverMoves(u, s.calls, ev.e, ev.attempt.channel, ev.writeOk, ev.nonce, d);
    }
  }

  lemma HandOverIdles(s: State, e: Id, d: Id)
    requires e in s.pending && s.pending[e].channel.Some?
    ensures Idles(s, HandOver(s, e)) && Stays(s, HandOver(s, e), d)
  {
  }

  lemma EncryptionMoves(s: State, ev: Event, d: Id)
    requires (ev.OnSuccess? || ev.OnFailure?) && Next(s, ev).Some?
    ensures Moves(s, ev, Next(s, ev).value, d)
  {
    if ev.e in s.pending && s.pending[ev.e].channel.Some? {
      var p := s.pending[ev.e];
      if ev.OnSuccess? && ev.hasKey {
        HandOverIdles(s, ev.e, d);
      } else {
        FailInitiationIdles(s, ev.e, p.channel, EndpointIoError, p.result, d);
      }
    }
  }

  lemma StepMoves(s: State, ev: Event, d: Id)
    requires Next(s, ev).Some?
    ensures Moves(s, ev, Next(s, ev).value, d)
  {
    match ev
    case OnRequest(_, _, _, _, _, _) => RequestMoves(s, ev, d);
    case OnIncoming(_, _, _, _, _) => IncomingMoves(s, ev, d);
    case OnSuccess(_, _) => EncryptionMoves(s, ev, d);
    case OnFailure(_, _) => EncryptionMoves(s, ev, d);
    case OnAnswer(e, accept, writeOk) =>
      FailResultIdles(s, e, d);
      if e in s.pending && e in s.manager && writeOk { EvaluateIdles(LocalAnswer(s, e, accept), e, d); }
    case OnResponse(e, accept) =>
      if e !in s.client || s.client[e].remote.None? { EvaluateIdles(RemoteAnswer(s, e, accept), e, d); }
    case OnDisconnect(e) => FailResultIdles(s, e, d);
    case _ =>
  }

  /** What the channel manager holds for `d` after a step it held before, or it was just
      handed over by the entry of `d`. */
  predicate Comes(s: State, t: State, d: Id) {
    && s.handed <= t.handed
    && (d in t.manager ==>
          || (d in s.manager && t.manager[d] == s.manager[d])
          || (Handshaking(s.pending, d) && s.pending[d].channel == Some(t.manager[d]) && t.manager[d] in t.handed))
  }

  lemma EncryptionComes(s: State, ev: Event, d: Id)
    requires (ev.OnSuccess? || ev.OnFailure?) && Next(s, ev).Some?
    ensures Comes(s, Next(s, ev).value, d)
  {
    if ev.e in s.pending && s.pending[ev.e].channel.Some? && !(ev.OnSuccess? && ev.hasKey) {
      FailInitiationIdles(s, ev.e, s.pending[ev.e].channel, EndpointIoError, s.pending[ev.e].result, d);
    }
  }

  lemma StepComes(s: State, ev: Event, d: Id)
    requires Next(s, ev).Some?
    ensures Comes(s, Next(s, ev).value, d)
  {
    match ev
    case OnRequest(_, _, _, _, _, _) => RequestMoves(s, ev, d);
    case OnIncoming(_, _, _, _, _) => IncomingMoves(s, ev, d);
    case OnSuccess(_, _) => EncryptionComes(s, ev, d);
    case OnFailure(_, _) => EncryptionComes(s, ev, d);
    case OnAnswer(e, accept, writeOk) =>
      FailResultIdles(s, e, d);
      if e in s.pending && e in s.manager && writeOk { EvaluateIdles(LocalAnswer(s, e, accept), e, d); }
    case OnResponse(e, accept) =>
      if e !in s.client || s.client[e].remote.None? { EvaluateIdles(RemoteAnswer(s, e, accept), e, d); }
    case OnDisconnect(e) => FailResultIdles(s, e, d);
    case _ =>
  }

  // ---------------------------------------------------------------- every run

  /** The channel of a job became pending, and only the entry of the job's own endpoint can
      own it, or the channel manager for that endpoint. */
  predicate Filed(s: State, job: (Id, Option<Channel>), d: Id) {
    && job.1.Some? && job.1.value in s.entered
    && (Handshaking(s.pending, d) && s.pending[d].channel == job.1 ==> d == job.0)
    && (d in s.manager && Some(s.manager[d]) == job.1 ==> d == job.0)
  }

  /** The channel manager holds only what was handed over. */
  predicate Managed(s: State, d: Id) {
    d in s.manager ==> s.manager[d] in s.handed
  }

  lemma {:induction false} AlwaysManaged(r: Run, i: nat, d: Id)
    requires IsRun(r) && i < |r.states|
    ensures Managed(r.states[i], d)
  {
    if i > 0 {
      AlwaysManaged(r, i - 1, d);
      assert IsStep(r.states[i - 1], r.events[i - 1], r.states[i]);
      StepComes(r.states[i - 1], r.events[i - 1], d);
    }
  }

  lemma {:induction false} JobsAreFiled(r: Run, i: nat, job: (Id, Option<Channel>), d: Id)
    requires IsRun(r) && i < |r.states| && job in r.states[i].jobs
    ensures Filed(r.states[i], job, d)
  {
    var s, ev, t := r.states[i - 1], r.events[i - 1], r.states[i];
    assert IsStep(s, ev, t);
    StepMoves(s, ev, d);
    StepComes(s, ev, d);
    Reachable(r, i - 1);
    if job in s.jobs {
      JobsAreFiled(r, i - 1, job, d);
      OldJob(s, ev, t, job, d);
    } else {
      AlwaysManaged(r, i - 1, d);
      NewJob(s, ev, t, job, d);
    }
  }

  lemma OldJob(s: State, ev: Event, t: State, job: (Id, Option<Channel>), d: Id)
    requires Books(s) && Enabled(s, ev) && Moves(s, ev, t, d) && Comes(s, t, d) && Filed(s, job, d)
    ensures Filed(t, job, d)
  {
  }

  /** The channel of a new job is new, so that nobody else can hold it. */
  lemma NewJob(s: State, ev: Event, t: State, job: (Id, Option<Channel>), d: Id)
    requires Books(s) && Managed(s, d) && Enabled(s, ev) && Moves(s, ev, t, d) && Comes(s, t, d) && job in t.jobs && job !in s.jobs
    ensures Filed(t, job, d)
  {
    assert Housed(s.pending, s.entered, d);
  }

  /** In every run the failure callback of a job reads a channel that is gone exactly if
      neither the job's entry nor the channel manager, for the job's endpoint, holds it. */
  lemma FailureReadsDestroyed(r: Run, i: nat, e: Id, c: Channel)
    requires IsRun(r) && i < |r.states| && (e, Some(c)) in r.states[i].jobs
    ensures var s := r.states[i];
            Destroyed(s, c) <==> !(e in s.pending && s.pending[e].channel == Some(c)) && !(e in s.manager && s.manager[e] == c)
  {
    var s := r.states[i];
    JobsAreFiled(r, i, (e, Some(c)), e);
    if Owned(s.pending, c) {
      var d :| Handshaking(s.pending, d) && s.pending[d].channel.value == c;
      JobsAreFiled(r, i, (e, Some(c)), d);
    } else {
      assert !(Handshaking(s.pending, e) && s.pending[e].channel.value == c);
    }
    forall d | d in s.manager && s.manager[d] == c ensures d == e {
      JobsAreFiled(r, i, (e, Some(c)), d);
    }
  }

  /** A channel that died with its entry is gone, and so is one that was handed over and that
      the channel manager dropped. */
  lemma GoneOrHeld(r: Run, i: nat, e: Id, c: Channel)
    requires IsRun(r) && i < |r.states| && (e, Some(c)) in r.states[i].jobs && Destroyed(r.states[i], c)
    ensures c in r.states[i].closed || r.states[i].handed[c] == 1
  {
    var s := r.states[i];
    Reachable(r, i);
    assert Accounted(s.pending, s.entered, s.closed, s.handed, c);
  }
}
