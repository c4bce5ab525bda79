/**
  The encryption contexts the channel manager keeps: which channel is encrypted by which
  decision.
*/
module PcpContexts {
  import opened Options
  import opened Mediums
  import opened Latches
  import opened PcpState
  import opened PcpInvariants
  import opened PcpJobs
  import opened PcpTheorems

  /** The step that makes the connection of `e` accepted by both sides. */
  predicate Accepts(s: State, ev: Event, e: Id) {
    Decides(s, ev) && ev.e == e && IsAccepted(Informed(s, ev), e)
  }

  /** The step hands the channel `c` of `e` over. */
  predicate HandsOver(s: State, ev: Event, e: Id, c: Channel) {
    ev == OnSuccess(e, true) && e in s.pending && s.pending[e].channel == Some(c)
  }

  // ---------------------------------------------------------------- steps

  predicate Same(s: State, t: State) {
    t.contexts == s.contexts && t.encrypted == s.encrypted
  }

  lemma FailInitiationSame(s: State, e: Id, c: Option<Channel>, status: Status, f: Option<Future>)
    ensures Same(s, FailInitiation(s, e, c, status, f))
  {
  }

  lemma FailResultSame(s: State, e: Id)
    ensures Same(s, FailResult(s, e))
  {
  }

  lemma BreakTieSame(s: State, e: Id, nonce: int, c: Channel)
    requires !BreakTie(s, e, nonce, c).Crash?
    ensures Same(s, BreakTie(s, e, nonce, c).state)
  {
    if e in s.pending && s.pending[e].nonce <= nonce {
      var p, g := s.pending[e], if s.pending[e].nonce == nonce then CloseChannel(s, Some(c)) else s;
      FailInitiationSame(g, e, p.channel, EndpointIoError, p.result);
      FailResultSame(FailInitiation(g, e, p.channel, EndpointIoError, p.result), e);
    }
  }

  lemma IncomingRequestSame(s: State, c: Channel, e: Id, nonce: int, welcome: bool)
    requires IncomingRequest(s, c, e, nonce, welcome).Some?
    ensures Same(s, IncomingRequest(s, c, e, nonce, welcome).value)
  {
    if !IsConnected(s, e) {
      BreakTieSame(s, e, nonce, c);
    }
  }

  lemma IncomingSame(s: State, ev: Event)
    requires ev.OnIncoming? && Next(s, ev).Some?
    ensures Same(s, Next(s, ev).value)
  {
    var g, t := s.(created := s.created + 1), Next(s, ev);
    if ev.listening && ev.request.None? {
      FailInitiationSame(g, "", Some(ev.channel), Error, None);
    } else if ev.listening {
      assert t == IncomingRequest(g, ev.channel, ev.request.value.0, ev.request.value.1, ev.allowed && ev.typeOk);
      IncomingRequestSame(g, ev.channel, ev.request.value.0, ev.request.value.1, ev.allowed && ev.typeOk);
    }
  }

  lemma RequestSame(s: State, ev: Event)
    requires ev.OnRequest?
    ensures Same(s, Next(s, ev).value)
  {
    if Refused(s, ev) {
      RequestRefused(s, ev);
    } else {
      RequestGoesOn(s, ev);
      var u := s.(created := s.created + 1, calls := s.calls + 1);
      FailInitiationSame(u, ev.e, Some(ev.attempt.channel), EndpointIoError, Some(s.calls));
    }
  }

  lemma DecideEncrypts(u: State, e: Id)
    ensures var t := Decide(u, e);
            if IsAccepted(u, e) then
              t.contexts == u.contexts + {e} && t.encrypted == u.encrypted + (if e in u.manager then {u.manager[e]} else {})
            else Same(u, t)
  {
  }

  /** Evaluating an accepted connection keeps a context and encrypts the channel, if there
      is one. */
  lemma EvaluateEncrypts(u: State, e: Id)
    requires Evaluate(u, e).Some?
    ensures var t := Evaluate(u, e).value;
            if IsAccepted(u, e) && e in u.pending then
              t.contexts == u.contexts + {e} && t.encrypted == u.encrypted + (if e in u.manager then {u.manager[e]} else {})
            else Same(u, t)
  {
    if (IsAccepted(u, e) || IsRejected(u, e)) && e in u.pending {
      DecideEncrypts(u, e);
      DestroySame(Decide(u, e), u.pending[e]);
    }
  }

  lemma DestroySame(s: State, p: Pending)
    ensures Same(s, Destroy(s, p))
  {
  }

  /** Both sides having accepted `e` leaves a context, and an encrypted channel if there is
      one; anything else leaves all as it was. */
  predicate Encrypted(s: State, t: State, e: Id, accepted: bool) {
    if accepted then t.contexts == s.contexts + {e} && t.encrypted == s.encrypted + (if e in s.manager then {s.manager[e]} else {})
    else Same(s, t)
  }

  lemma AnswerEncrypts(s: State, ev: Event)
    requires ev.OnAnswer? && Next(s, ev).Some?
    ensures Encrypted(s, Next(s, ev).value, ev.e, Accepts(s, ev, ev.e))
  {
    if ev.e in s.pending && ev.e in s.manager && ev.writeOk {
      EvaluateEncrypts(Informed(s, ev), ev.e);
    } else {
      FailResultSame(s, ev.e);
    }
  }

  lemma ResponseEncrypts(s: State, ev: Event)
    requires ev.OnResponse? && Next(s, ev).Some?
    ensures Encrypted(s, Next(s, ev).value, ev.e, Accepts(s, ev, ev.e))
  {
    if ev.e !in s.client || s.client[ev.e].remote.None? {
      EvaluateEncrypts(Informed(s, ev), ev.e);
    }
  }

  lemma HandOverEncrypts(s: State, e: Id)
    requires Handshaking(s.pending, e)
    ensures HandOver(s, e).contexts == s.contexts
    ensures HandOver(s, e).encrypted == s.encrypted + if e in s.contexts then {s.pending[e].channel.value} else {}
  {
  }

  lemma EncryptionEncrypts(s: State, ev: Event)
    requires (ev.OnSuccess? || ev.OnFailure?) && Next(s, ev).Some?
    ensures var t := Next(s, ev).value;
            && t.contexts == s.contexts
            && t.encrypted == s.encrypted +
                 if ev.OnSuccess? && ev.hasKey && Handshaking(s.pending, ev.e) && ev.e in s.contexts
                 then {s.pending[ev.e].channel.value} else {}
  {
    if Handshaking(s.pending, ev.e) {
      if ev.OnSuccess? && ev.hasKey {
        HandOverEncrypts(s, ev.e);
      } else {
        FailInitiationSame(s, ev.e, s.pending[ev.e].channel, EndpointIoError, s.pending[ev.e].result);
      }
    }
  }

  /** A context is kept from the step in which both sides have accepted until the endpoint is
      unregistered. */
  lemma StepContext(s: State, ev: Event, e: Id)
    requires Next(s, ev).Some?
    ensures e in Next(s, ev).value.contexts <==> Accepts(s, ev, e) || (e in s.contexts && ev != OnUnregister(e))
  {
    match ev
    case OnRequest(_, _, _, _, _, _) => RequestSame(s, ev);
    case OnIncoming(_, _, _, _, _) => IncomingSame(s, ev);
    case OnSuccess(_, _) => EncryptionEncrypts(s, ev);
    case OnFailure(_, _) => EncryptionEncrypts(s, ev);
    case OnAnswer(_, _, _) => AnswerEncrypts(s, ev);
    case OnResponse(_, _) => ResponseEncrypts(s, ev);
    case OnDisconnect(d) => FailResultSame(s, d);
    case _ =>
  }

  /** A channel is encrypted when both sides have accepted its connection - or when it is
      handed over for an endpoint that still has a context. */
  predicate Encrypts(s: State, ev: Event, c: Channel) {
    match ev
    case OnAnswer(e, _, _) => Accepts(s, ev, e) && e in s.manager && s.manager[e] == c
    case OnResponse(e, _) => Accepts(s, ev, e) && e in s.manager && s.manager[e] == c
    case OnSuccess(e, _) => HandsOver(s, ev, e, c) && e in s.contexts
    case _ => false
  }

  lemma StepEncrypts(s: State, ev: Event, c: Channel)
    requires Next(s, ev).Some?
    ensures c in Next(s, ev).value.encrypted <==> c in s.encrypted || Encrypts(s, ev, c)
  {
    match ev
    case OnRequest(_, _, _, _, _, _) => RequestSame(s, ev);
    case OnIncoming(_, _, _, _, _) => IncomingSame(s, ev);
    case OnSuccess(_, _) => EncryptionEncrypts(s, ev);
    case OnFailure(_, _) => EncryptionEncrypts(s, ev);
    case OnAnswer(_, _, _) => AnswerEncrypts(s, ev);
    case OnResponse(_, _) => ResponseEncrypts(s, ev);
    case OnDisconnect(d) => FailResultSame(s, d);
    case _ =>
  }

  // ---------------------------------------------------------------- every run

  /** The steps in which both sides have accepted a connection of `e`, and those that
      unregister it. */
  function Acceptances(r: Run, e: Id): seq<bool>
    requires |r.states| == |r.events| + 1
  {
    seq(|r.events|, i requires 0 <= i < |r.events| => Accepts(r.states[i], r.events[i], e))
  }

  function Removals(r: Run, e: Id): seq<bool> {
    seq(|r.events|, i requires 0 <= i < |r.events| => r.events[i] == OnUnregister(e))
  }

  /** Before state `m`, both sides accepted a connection of `e`, and it was not unregistered
      since. */
  ghost predicate Kept(r: Run, e: Id, m: nat)
    requires |r.states| == |r.events| + 1 && m <= |r.events|
  {
    exists j: nat :: j < m && Latched(Acceptances(r, e), Removals(r, e), j, m)
  }

  ghost predicate FollowsRule(states: seq<State>, e: Id, on: seq<bool>, off: seq<bool>)
    requires |states| == |on| + 1 && |on| == |off|
  {
    forall i :: 0 <= i < |on| ==> (e in states[i + 1].contexts <==> on[i] || (e in states[i].contexts && !off[i]))
  }

  lemma {:induction false} RuleLatches(states: seq<State>, e: Id, on: seq<bool>, off: seq<bool>, m: nat)
    requires |states| == |on| + 1 && |on| == |off| && FollowsRule(states, e, on, off) && m <= |on|
    requires e !in states[0].contexts
    ensures e in states[m].contexts <==> exists j: nat :: j < m && Latched(on, off, j, m)
  {
    if m > 0 {
      RuleLatches(states, e, on, off, m - 1);
      LatchStep(on, off, m - 1, m);
    }
  }

  lemma ContextIsKept(r: Run, e: Id, m: nat)
    requires IsRun(r) && m < |r.states|
    ensures e in r.states[m].contexts <==> Kept(r, e, m)
  {
    forall i | 0 <= i < |r.events|
      ensures e in r.states[i + 1].contexts <==> Acceptances(r, e)[i] || (e in r.states[i].contexts && !Removals(r, e)[i])
    {
      assert IsStep(r.states[i], r.events[i], r.states[i + 1]);
      StepContext(r.states[i], r.events[i], e);
    }
    RuleLatches(r.states, e, Acceptances(r, e), Removals(r, e), m);
  }

  /** Only channels that were handed over are ever encrypted. */
  lemma {:induction false} EncryptedWasHandedOver(r: Run, m: nat, c: Channel)
    requires IsRun(r) && m < |r.states|
    ensures c in r.states[m].encrypted ==> c in r.states[m].handed
  {
    if m > 0 {
      EncryptedWasHandedOver(r, m - 1, c);
      var s, ev, t := r.states[m - 1], r.events[m - 1], r.states[m];
      assert IsStep(s, ev, t);
      StepEncrypts(s, ev, c);
      StepComes(s, ev, "");
      if Encrypts(s, ev, c) {
        AlwaysManaged(r, m - 1, ev.e);
        if ev.OnSuccess? {
          HandedOverIs(s, ev, c);
        }
      }
    }
  }

  lemma HandedOverIs(s: State, ev: Event, c: Channel)
    requires Next(s, ev).Some? && ev.OnSuccess? && HandsOver(s, ev, ev.e, c)
    ensures c in Next(s, ev).value.handed
  {
  }

  /** In every run a channel is encrypted as soon as it is handed over, before anybody could
      answer, exactly if an earlier connection of its endpoint was accepted by both sides and
      the endpoint was not unregistered since. */
  lemma EncryptedAtOnce(r: Run, i: nat, e: Id, c: Channel)
    requires IsRun(r) && i < |r.events| && HandsOver(r.states[i], r.events[i], e, c)
    ensures c !in r.states[i].encrypted
    ensures c in r.states[i + 1].encrypted <==> Kept(r, e, i)
  {
    var s, ev, t := r.states[i], r.events[i], r.states[i + 1];
    assert IsStep(s, ev, t);
    EncryptedWasHandedOver(r, i, c);
    Reachable(r, i);
    assert Housed(s.pending, s.entered, e);
    assert Accounted(s.pending, s.entered, s.closed, s.handed, c);
    assert Handshaking(s.pending, e) && s.pending[e].channel.value == c;
    ContextIsKept(r, e, i);
    StepEncrypts(s, ev, c);
  }

  /** In every run a channel is encrypted in no other way than that, and by both sides having
      accepted the connection it was handed over for. */
  lemma EncryptedByAcceptance(r: Run, i: nat, c: Channel)
    requires IsRun(r) && i < |r.events| && c in r.states[i + 1].encrypted && c !in r.states[i].encrypted
    ensures var s, ev := r.states[i], r.events[i];
            || (ev.OnSuccess? && HandsOver(s, ev, ev.e, c) && Kept(r, ev.e, i))
            || ((ev.OnAnswer? || ev.OnResponse?) && Accepts(s, ev, ev.e) && ev.e in s.manager && s.manager[ev.e] == c)
  {
    assert IsStep(r.states[i], r.events[i], r.states[i + 1]);
    StepEncrypts(r.states[i], r.events[i], c);
    if r.events[i].OnSuccess? {
      ContextIsKept(r, r.events[i].e, i);
    }
  }

  // ---------------------------------------------------------------- it does happen

  lemma Append(r: Run, ev: Event) returns (q: Run)
    requires IsRun(r) && Enabled(r.states[|r.events|], ev) && Next(r.states[|r.events|], ev).Some?
    ensures IsRun(q) && q.events == r.events + [ev] && q.states[|q.events|] == Next(r.states[|r.events|], ev).value
  {
    var t := Next(r.states[|r.events|], ev).value;
    ExtendRun(r, ev, t);
    q := Run(r.states + [t], r.events + [ev]);
  }

  /** We accept, and the channel is dropped before the other side's accept is processed. */
  lemma DroppedTooSoon() returns (r: Run)
    ensures IsRun(r)
    ensures var s := r.states[|r.events|];
            && s.pending == map["A" := Pending(1, false, None, None, true)] && s.client == map["A" := Connection(Some(true), None, false)]
            && "A" !in s.manager && s.encrypted == {} && s.created == 1
  {
    AfterHandOverRuns("A");
    var s := AfterHandOver("A").states[2];
    var u := LocalAnswer(s, "A", true);
    assert Evaluate(u, "A") == Some(u);
    r := Append(AfterHandOver("A"), OnAnswer("A", true, true));
    r := Append(r, OnUnregister("A"));
  }

  /** Both have accepted then, and a context is kept for an endpoint without a channel. */
  lemma ContextWithoutChannel() returns (r: Run)
    ensures IsRun(r)
    ensures var s := r.states[|r.events|];
            "A" in s.contexts && "A" !in s.pending && "A" !in s.client && s.encrypted == {} && s.created == 1
  {
    r := DroppedTooSoon();
    var s := r.states[|r.events|];
    var u := RemoteAnswer(s, "A", true);
    WithKeyDecides(u, "A");
    EvaluatePending(u, "A");
    EvaluateEncrypts(u, "A");
    r := Append(r, OnResponse("A", true));
  }

  /** The next channel of that endpoint is encrypted before anybody answered. */
  lemma EncryptedBeforeAnyAnswer() returns (r: Run)
    ensures IsRun(r)
    ensures var s := r.states[|r.events|];
            "A" in s.manager && s.manager["A"] in s.encrypted && "A" in s.client && s.client["A"] == Connection(None, None, false)
  {
    r := ContextWithoutChannel();
    r := Append(r, OnRequest("A", true, true, Obtained(Channel(1, "B", BLUETOOTH)), true, 2));
    r := Append(r, OnSuccess("A", true));
  }
}
