/**
  Two devices that ask for each other at the same time.

  Device `a` has sent its request over lane A and device `b` over lane B; neither
  has seen the other's request yet.  From then on the two connection handlers take
  the steps of `PcpState`, joined by the request frames, the handshakes of the
  encryption runners, and what the users and the endpoint managers do afterwards.
*/
module TieBreak {
  import opened Options
  import opened PcpState
  import opened PcpInvariants
  import opened PcpJobs

  /** An encryption job; `Told` once its callback has run. */
  datatype Job = Idle | Running | Succeeded | Failed | Told(success: bool)

  /** One lane: whether the request frame was read, whether its reader had by then been
      told that its own request failed, and the jobs at the two ends. */
  datatype Lane = Lane(delivered: bool, unopposed: bool, clientJob: Job, serverJob: Job)

  /** Names, nonces, and how each device sees the two channels. */
  datatype Config = Config(
    idA: Id, idB: Id,
    nonceA: int, nonceB: int,
    ownA: Channel, otherA: Channel,
    ownB: Channel, otherB: Channel)

  datatype System = System(a: State, b: State, laneA: Lane, laneB: Lane)

  predicate Proper(k: Config) {
    k.ownA.id == 0 && k.otherA.id == 1 && k.ownB.id == 0 && k.otherB.id == 1
  }

  function Start(k: Config): System {
    System(Request(Initial(), k.idB, true, true, Obtained(k.ownA), true, k.nonceA),
           Request(Initial(), k.idA, true, true, Obtained(k.ownB), true, k.nonceB),
           Lane(false, false, Running, Idle), Lane(false, false, Running, Idle))
  }

  function Mirror(k: Config): Config {
    Config(k.idB, k.idA, k.nonceB, k.nonceA, k.ownB, k.otherB, k.ownA, k.otherA)
  }

  function Swap(s: System): System {
    System(s.b, s.a, s.laneB, s.laneA)
  }

  /** The client of a lane has sent its last handshake message. */
  predicate Finished(l: Lane) {
    l.clientJob == Succeeded || l.clientJob == Told(true)
  }

  /** What device `a` may do. */
  datatype Move =
    | Deliver(allowed: bool, typeOk: bool)
    | ClientSucceeds
    | ClientFails
    | ServerSucceeds
    | ServerFails
    | ClientCallback
    | ServerCallback
    | Local(ev: Event)

  /** What users and the endpoint manager do, once the endpoint was registered. */
  predicate IsLocal(ev: Event, e: Id) {
    (ev.OnAnswer? || ev.OnResponse? || ev.OnDisconnect? || ev.OnUnregister? || ev.OnClientGone?) && ev.e == e
  }

  function Callback(s: State, e: Id, job: Job, c: Channel): Option<State> {
    if job == Succeeded then EncryptionSuccess(s, e, true)
    else EncryptionFailure(s, e, c)
  }

  /** The step of device `a`, or None where it is not possible. A handshake may fail at any
      time, whatever the reason; the server finishes after the client. */
  function StepA(k: Config, s: System, m: Move): Option<System> {
    match m
    case Deliver(allowed, typeOk) =>
      var next := Incoming(s.a, k.otherA, true, Some((k.idB, k.nonceB)), allowed, typeOk);
      if s.laneB.delivered || next.None? then None
      else Some(s.(a := next.value,
                   laneB := s.laneB.(delivered := true,
                                     unopposed := s.laneA.clientJob == Told(false),
                                     serverJob := if next.value.jobs != s.a.jobs then Running else s.laneB.serverJob)))
    case ClientSucceeds =>
      if s.laneA.clientJob == Running && !s.laneA.serverJob.Idle? && k.ownA !in s.a.closed
      then Some(s.(laneA := s.laneA.(clientJob := Succeeded))) else None
    case ClientFails =>
      if s.laneA.clientJob == Running
      then Some(s.(laneA := s.laneA.(clientJob := Failed))) else None
    case ServerSucceeds =>
      if s.laneB.serverJob == Running && Finished(s.laneB)
      then Some(s.(laneB := s.laneB.(serverJob := Succeeded))) else None
    case ServerFails =>
      if s.laneB.serverJob == Running
      then Some(s.(laneB := s.laneB.(serverJob := Failed))) else None
    case ClientCallback =>
      var job := s.laneA.clientJob;
      var next := Callback(s.a, k.idB, job, k.ownA);
      if (job == Succeeded || job == Failed) && next.Some?
      then Some(s.(a := next.value, laneA := s.laneA.(clientJob := Told(job == Succeeded)))) else None
    case ServerCallback =>
      var job := s.laneB.serverJob;
      var next := Callback(s.a, k.idB, job, k.otherA);
      if (job == Succeeded || job == Failed) && next.Some?
      then Some(s.(a := next.value, laneB := s.laneB.(serverJob := Told(job == Succeeded)))) else None
    case Local(ev) =>
      var next := Next(s.a, ev);
      if IsLocal(ev, k.idB) && s.a.handed != multiset{} && next.Some? then Some(s.(a := next.value)) else None
  }

  ghost predicate Step(k: Config, s: System, t: System) {
    || (exists m :: StepA(k, s, m) == Some(t))
    || (exists m :: StepA(Mirror(k), Swap(s), m) == Some(Swap(t)))
  }

  ghost predicate IsRun(k: Config, run: seq<System>) {
    && |run| > 0
    && run[0] == Start(k)
    && forall i :: 0 <= i < |run| - 1 ==> Step(k, run[i], run[i + 1])
  }

  // ---------------------------------------------------------------- handler effects

  /** Local events never create an entry and never hand a channel over. */
  lemma LocalEffect(s: State, ev: Event, e: Id)
    requires IsLocal(ev, e) && Next(s, ev).Some?
    ensures var t := Next(s, ev).value;
            && t.handed == s.handed
            && s.closed <= t.closed
            && (e in t.pending ==> e in s.pending && t.pending[e] == s.pending[e])
            && (e in s.pending && e !in t.pending ==> Elements(s.pending[e].channel) <= t.closed)
  {
    match ev
    case OnAnswer(_, accept, writeOk) =>
      if e in s.pending && e in s.manager && writeOk {
        EvaluateEffect(LocalAnswer(s, e, accept), e);
      } else {
        FailResultEffect(s, e);
      }
    case OnResponse(_, accept) =>
      if e !in s.client || s.client[e].remote.None? { EvaluateEffect(RemoteAnswer(s, e, accept), e); }
    case OnDisconnect(_) => FailResultEffect(s, e);
    case OnUnregister(_) =>
    case OnClientGone(_) =>
  }

  lemma FailResultEffect(s: State, e: Id)
    ensures var t := FailResult(s, e);
            && t.handed == s.handed
            && s.closed <= t.closed
            && e !in t.pending
            && (e in s.pending ==> Elements(s.pending[e].channel) <= t.closed)
  {
  }

  lemma EvaluateEffect(s: State, e: Id)
    requires Evaluate(s, e).Some?
    ensures var t := Evaluate(s, e).value;
            && t.handed == s.handed
            && s.closed <= t.closed
            && (e in t.pending ==> e in s.pending && t.pending[e] == s.pending[e])
            && (e in s.pending && e !in t.pending ==> Elements(s.pending[e].channel) <= t.closed)
  {
    if (IsAccepted(s, e) || IsRejected(s, e)) && e in s.pending {
      DecideShape(s, e);
      DestroyEffect(Decide(s, e), s.pending[e]);
    }
  }

  lemma DestroyEffect(s: State, p: Pending)
    ensures var t := Destroy(s, p); t.handed == s.handed && t.pending == s.pending && t.closed == s.closed + Elements(p.channel)
  {
  }

  lemma FailureEffect(s: State, e: Id, c: Channel)
    requires EncryptionFailure(s, e, c).Some?
    ensures var t := EncryptionFailure(s, e, c).value;
            && t.handed == s.handed
            && s.closed <= t.closed
            && (e in t.pending ==> e in s.pending && t.pending[e] == s.pending[e])
            && (e in s.pending && e !in t.pending ==> Elements(s.pending[e].channel) <= t.closed)
            && (e in s.pending && s.pending[e].channel == Some(c) ==> e !in t.pending)
  {
  }

  lemma SuccessEffect(s: State, e: Id)
    requires EncryptionSuccess(s, e, true).Some?
    ensures var t := EncryptionSuccess(s, e, true).value;
            && t.closed == s.closed
            && (e in t.pending <==> e in s.pending)
            && (e !in s.pending ==> t == s)
            && (e in s.pending ==>
                  && s.pending[e].channel.Some?
                  && t.handed == s.handed + multiset{s.pending[e].channel.value}
                  && t.pending[e].nonce == s.pending[e].nonce && t.pending[e].channel.None?)
  {
  }

  lemma LoseTieEffect(s: State, e: Id)
    requires e in s.pending && LoseTie(s, e).Some?
    ensures var t := LoseTie(s, e).value;
            && s.pending[e].channel.Some?
            && t.handed == s.handed && t.jobs == s.jobs
            && t.closed == s.closed + {s.pending[e].channel.value}
            && e !in t.pending
  {
    var p := s.pending[e];
    var t := SetFuture(CloseChannel(s, p.channel), p.result, EndpointIoError);
    assert Unanswered(t, p).None? && t.closed + Elements(p.channel) == t.closed;
  }

  /** What an incoming request for `e` with nonce `n` over the new channel `c` does,
      on a device that is not connected to `e`. */
  predicate IncomingDoes(s: State, t: State, c: Channel, e: Id, n: int) {
    && t.handed == s.handed
    && (e in t.pending ==> t.pending[e].channel == Some(c) || (e in s.pending && t.pending[e] == s.pending[e]))
    && (if e !in s.pending then
          t.closed == s.closed && (t.jobs == s.jobs ==> e !in t.pending)
        else if s.pending[e].nonce > n then
          t.pending == s.pending && t.jobs == s.jobs && t.closed == s.closed + {c}
        else if s.pending[e].nonce < n then
          && s.pending[e].channel.Some?
          && t.closed == s.closed + {s.pending[e].channel.value}
          && (t.jobs == s.jobs ==> e !in t.pending)
          && (e in t.pending ==> t.pending[e].channel == Some(c))
        else
          && s.pending[e].channel.Some?
          && t.closed == s.closed + {c} + {s.pending[e].channel.value}
          && e !in t.pending && t.jobs == s.jobs)
  }

  lemma RequestWhenAbsent(s: State, c: Channel, e: Id, n: int, welcome: bool)
    requires e !in s.pending && !IsConnected(s, e)
    ensures IncomingRequest(s, c, e, n, welcome).Some?
    ensures IncomingDoes(s, IncomingRequest(s, c, e, n, welcome).value, c, e, n)
  {
  }

  lemma RequestWhenLower(s: State, c: Channel, e: Id, n: int, welcome: bool)
    requires e in s.pending && s.pending[e].nonce < n && !IsConnected(s, e) && IncomingRequest(s, c, e, n, welcome).Some?
    ensures IncomingDoes(s, IncomingRequest(s, c, e, n, welcome).value, c, e, n)
  {
    LoseTieEffect(s, e);
    var t := LoseTie(s, e).value;
    var p := Pending(n, true, None, Some(c), false);
    assert IncomingRequest(s, c, e, n, welcome).value == if welcome then StartJob(Emplace(t, e, p), e) else t;
  }

  lemma RequestWhenNotLower(s: State, c: Channel, e: Id, n: int, welcome: bool)
    requires e in s.pending && s.pending[e].nonce >= n && !IsConnected(s, e) && IncomingRequest(s, c, e, n, welcome).Some?
    ensures IncomingDoes(s, IncomingRequest(s, c, e, n, welcome).value, c, e, n)
  {
    if s.pending[e].nonce == n {
      LoseTieEffect(CloseChannel(s, Some(c)), e);
    }
  }

  lemma IncomingEffect(s: State, c: Channel, e: Id, n: int, allowed: bool, typeOk: bool)
    requires Incoming(s, c, true, Some((e, n)), allowed, typeOk).Some? && !IsConnected(s, e)
    ensures IncomingDoes(s, Incoming(s, c, true, Some((e, n)), allowed, typeOk).value, c, e, n)
  {
    var g := s.(created := s.created + 1);
    var t := IncomingRequest(g, c, e, n, allowed && typeOk);
    assert t == Incoming(s, c, true, Some((e, n)), allowed, typeOk);
    if e !in s.pending {
      RequestWhenAbsent(g, c, e, n, allowed && typeOk);
    } else if s.pending[e].nonce < n {
      RequestWhenLower(g, c, e, n, allowed && typeOk);
    } else {
      RequestWhenNotLower(g, c, e, n, allowed && typeOk);
    }
    assert IncomingDoes(g, t.value, c, e, n);
  }

  // ---------------------------------------------------------------- what always holds

  /** The lanes of a request that was not read are idle at the reader. */
  predicate Orderly(l: Lane) {
    && (!l.serverJob.Idle? ==> l.delivered)
    && (Finished(l) ==> l.delivered)
    && (l.unopposed ==> l.delivered)
  }

  /** Device `d` only ever handles its own channel and the other one. */
  predicate Knows(d: State, e: Id, own: Channel, other: Channel) {
    && own in d.entered
    && (Handshaking(d.pending, e) ==> d.pending[e].channel == Some(own) || d.pending[e].channel == Some(other))
    && (forall c | c in d.handed :: c == own || c == other)
  }

  /** Device `b`, whose nonce is not the higher one: it has its own request pending until it
      is told how that ended, or hears of the other request; and then the own one is
      closed. */
  predicate AtB(k: Config, s: System) {
    && (!s.laneA.delivered && !s.laneB.clientJob.Told? ==>
          && k.idA in s.b.pending && s.b.pending[k.idA].channel == Some(k.ownB)
          && k.idA !in s.b.client && s.b.handed == multiset{})
    && (!s.laneA.delivered && k.idA in s.b.pending ==>
          s.b.pending[k.idA].nonce == k.nonceB && (s.b.pending[k.idA].channel.Some? <==> !s.laneB.clientJob.Told?))
    && (s.laneA.delivered && !s.laneB.clientJob.Told? ==> k.ownB in s.b.closed && k.ownB !in s.b.handed)
    && (s.laneA.delivered && Handshaking(s.b.pending, k.idA) ==> s.b.pending[k.idA].channel == Some(k.otherB))
  }

  // ---------------------------------------------------------------- unless unopposed

  /** What device `a`, whose nonce is not the lower one, can have pending. */
  predicate WinsAtA(k: Config, s: System) {
    && (k.idB in s.a.pending ==>
          var p := s.a.pending[k.idB];
          || (p.channel == Some(k.ownA) && p.nonce == k.nonceA)
          || (p.channel.None? && p.nonce == k.nonceA && s.a.handed != multiset{})
          || (p.channel == Some(k.otherA) && s.laneB.delivered && s.laneA.clientJob.Told?))
    && (!s.laneB.delivered && k.idB !in s.a.pending ==> s.laneA.clientJob.Told?)
    && (forall c | c in s.a.handed :: c == k.ownA)
    && (s.a.handed != multiset{} ==> s.laneA.clientJob == Told(true))
    && (!s.laneB.serverJob.Idle? && k.idB in s.a.pending ==> s.a.pending[k.idB].channel == Some(k.otherA))
  }

  predicate WinsAtB(k: Config, s: System) {
    && (s.b.handed != multiset{} ==> s.laneA.serverJob == Told(true))
    && (forall c | c in s.b.handed :: c == k.otherB)
    && (k.idA in s.b.pending && s.b.pending[k.idA].channel.None? ==> s.b.handed != multiset{})
  }

  /** Lane B gets nowhere. */
  predicate Lanes(k: Config, s: System) {
    && !Finished(s.laneB)
    && s.laneB.serverJob != Succeeded && s.laneB.serverJob != Told(true)
    && (!s.laneB.serverJob.Idle? ==> s.laneA.delivered)
  }

  predicate Wins(k: Config, s: System) {
    WinsAtA(k, s) && WinsAtB(k, s) && Lanes(k, s)
  }

  predicate Always(k: Config, s: System) {
    && Orderly(s.laneA) && Orderly(s.laneB)
    && (s.laneB.unopposed ==> s.laneA.clientJob == Told(false))
    && Knows(s.a, k.idB, k.ownA, k.otherA) && Knows(s.b, k.idA, k.ownB, k.otherB)
    && AtB(k, s)
  }

  predicate Inv(k: Config, s: System) {
    Always(k, s) && (s.laneB.unopposed || Wins(k, s))
  }

  lemma StartInv(k: Config)
    requires Proper(k) && k.nonceA >= k.nonceB
    ensures Inv(k, Start(k))
  {
  }

  // ---------------------------------------------------------------- steps

  lemma RequestReadByA(k: Config, s: System, m: Move)
    requires Proper(k) && k.nonceA >= k.nonceB && Always(k, s) && m.Deliver? && StepA(k, s, m).Some?
    ensures Always(k, StepA(k, s, m).value)
  {
    if !IsConnected(s.a, k.idB) {
      IncomingEffect(s.a, k.otherA, k.idB, k.nonceB, m.allowed, m.typeOk);
    }
    IncomingMoves(s.a, OnIncoming(k.otherA, true, Some((k.idB, k.nonceB)), m.allowed, m.typeOk), k.idB);
  }

  lemma DeliverToA(k: Config, s: System, m: Move)
    requires Proper(k) && k.nonceA >= k.nonceB && Inv(k, s) && m.Deliver? && StepA(k, s, m).Some?
    ensures Inv(k, StepA(k, s, m).value)
  {
    var t := StepA(k, s, m).value;
    RequestReadByA(k, s, m);
    if !IsConnected(s.a, k.idB) {
      IncomingEffect(s.a, k.otherA, k.idB, k.nonceB, m.allowed, m.typeOk);
    } else {
      assert t.a == s.a.(created := s.a.created + 1);
    }
  }

  lemma SuccessToldToA(k: Config, s: System, m: Move)
    requires Proper(k) && Always(k, s) && StepA(k, s, m).Some?
    requires (m.ClientCallback? && s.laneA.clientJob == Succeeded) || (m.ServerCallback? && s.laneB.serverJob == Succeeded)
    ensures Always(k, StepA(k, s, m).value)
  {
    SuccessEffect(s.a, k.idB);
    EncryptionMoves(s.a, OnSuccess(k.idB, true), k.idB);
  }

  lemma SuccessAtA(k: Config, s: System, m: Move)
    requires Proper(k) && Inv(k, s) && StepA(k, s, m).Some?
    requires (m.ClientCallback? && s.laneA.clientJob == Succeeded) || (m.ServerCallback? && s.laneB.serverJob == Succeeded)
    ensures Inv(k, StepA(k, s, m).value)
  {
    SuccessToldToA(k, s, m);
    if !s.laneB.unopposed {
      WinnerToldToA(k, s);
    }
  }

  lemma WinnerToldToA(k: Config, s: System)
    requires Proper(k) && Wins(k, s) && s.laneA.clientJob == Succeeded && StepA(k, s, ClientCallback).Some?
    ensures Wins(k, StepA(k, s, ClientCallback).value)
  {
    var t := StepA(k, s, ClientCallback).value;
    SuccessEffect(s.a, k.idB);
    assert s.a.handed == multiset{};
    if k.idB in s.a.pending {
      assert s.a.pending[k.idB].channel == Some(k.ownA);
      assert t.a.handed == multiset{k.ownA};
    }
    assert t.b == s.b && t.laneB == s.laneB && t.laneA == s.laneA.(clientJob := Told(true));
    assert WinsAtA(k, t);
  }

  lemma FailureAtA(k: Config, s: System, m: Move)
    requires Proper(k) && Inv(k, s) && StepA(k, s, m).Some?
    requires (m.ClientCallback? && s.laneA.clientJob == Failed) || (m.ServerCallback? && s.laneB.serverJob == Failed)
    ensures Inv(k, StepA(k, s, m).value)
  {
    var c := if m.ClientCallback? then k.ownA else k.otherA;
    FailureEffect(s.a, k.idB, c);
    EncryptionMoves(s.a, OnFailure(k.idB, c), k.idB);
  }

  lemma LocalAtA(k: Config, s: System, m: Move)
    requires Proper(k) && Inv(k, s) && m.Local? && StepA(k, s, m).Some?
    ensures Inv(k, StepA(k, s, m).value)
  {
    LocalEffect(s.a, m.ev, k.idB);
    StepMoves(s.a, m.ev, k.idB);
  }

  lemma StepOfA(k: Config, s: System, m: Move)
    requires Proper(k) && k.nonceA >= k.nonceB && Inv(k, s) && StepA(k, s, m).Some?
    ensures Inv(k, StepA(k, s, m).value)
  {
    match m
    case Deliver(_, _) => DeliverToA(k, s, m);
    case ClientCallback => if s.laneA.clientJob == Succeeded { SuccessAtA(k, s, m); } else { FailureAtA(k, s, m); }
    case ServerCallback => if s.laneB.serverJob == Succeeded { SuccessAtA(k, s, m); } else { FailureAtA(k, s, m); }
    case Local(_) => LocalAtA(k, s, m);
    case _ =>
  }

  lemma RequestReadByB(k: Config, s: System, m: Move)
    requires Proper(k) && k.nonceA >= k.nonceB && Always(k, s) && m.Deliver? && StepA(Mirror(k), Swap(s), m).Some?
    ensures Always(k, Swap(StepA(Mirror(k), Swap(s), m).value))
  {
    var t := Swap(StepA(Mirror(k), Swap(s), m).value);
    var ev := OnIncoming(k.otherB, true, Some((k.idA, k.nonceA)), m.allowed, m.typeOk);
    assert Next(s.b, ev) == Some(t.b) && t.a == s.a && t.laneB == s.laneB;
    KnowsAfterRequest(s.b, ev, k.idA, k.ownB);
    if IsConnected(s.b, k.idA) {
      assert t.b == s.b.(created := s.b.created + 1);
    } else {
      IncomingEffect(s.b, k.otherB, k.idA, k.nonceA, m.allowed, m.typeOk);
    }
    assert AtB(k, t);
  }

  lemma KnowsAfterRequest(d: State, ev: Event, e: Id, own: Channel)
    requires ev.OnIncoming? && ev.listening && ev.request.Some? && ev.request.value.0 == e && Next(d, ev).Some?
    requires Knows(d, e, own, ev.channel)
    ensures Knows(Next(d, ev).value, e, own, ev.channel)
  {
    if IsConnected(d, e) {
      assert Next(d, ev).value == d.(created := d.created + 1);
    } else {
      IncomingEffect(d, ev.channel, e, ev.request.value.1, ev.allowed, ev.typeOk);
    }
    IncomingMoves(d, ev, e);
  }

  lemma DeliverToB(k: Config, s: System, m: Move)
    requires Proper(k) && k.nonceA >= k.nonceB && Inv(k, s) && m.Deliver? && StepA(Mirror(k), Swap(s), m).Some?
    ensures Inv(k, Swap(StepA(Mirror(k), Swap(s), m).value))
  {
    var t := Swap(StepA(Mirror(k), Swap(s), m).value);
    RequestReadByB(k, s, m);
    if !IsConnected(s.b, k.idA) {
      IncomingEffect(s.b, k.otherB, k.idA, k.nonceA, m.allowed, m.typeOk);
    } else {
      assert t.b == s.b.(created := s.b.created + 1);
    }
  }

  lemma KnowsAfterSuccess(d: State, e: Id, own: Channel, other: Channel)
    requires Knows(d, e, own, other) && EncryptionSuccess(d, e, true).Some?
    ensures Knows(EncryptionSuccess(d, e, true).value, e, own, other)
  {
    SuccessEffect(d, e);
    EncryptionMoves(d, OnSuccess(e, true), e);
  }

  lemma SuccessToldToB(k: Config, s: System, m: Move)
    requires Proper(k) && Always(k, s) && StepA(Mirror(k), Swap(s), m).Some?
    requires (m.ClientCallback? && s.laneB.clientJob == Succeeded) || (m.ServerCallback? && s.laneA.serverJob == Succeeded)
    ensures Always(k, Swap(StepA(Mirror(k), Swap(s), m).value))
  {
    var t := Swap(StepA(Mirror(k), Swap(s), m).value);
    assert EncryptionSuccess(s.b, k.idA, true) == Some(t.b) && t.a == s.a;
    KnowsAfterSuccess(s.b, k.idA, k.ownB, k.otherB);
    SuccessEffect(s.b, k.idA);
    assert AtB(k, t);
  }

  lemma SuccessAtB(k: Config, s: System, m: Move)
    requires Proper(k) && Inv(k, s) && StepA(Mirror(k), Swap(s), m).Some?
    requires (m.ClientCallback? && s.laneB.clientJob == Succeeded) || (m.ServerCallback? && s.laneA.serverJob == Succeeded)
    ensures Inv(k, Swap(StepA(Mirror(k), Swap(s), m).value))
  {
    SuccessToldToB(k, s, m);
    if !s.laneB.unopposed {
      WinnerToldToB(k, s);
    }
  }

  lemma WinnerToldToB(k: Config, s: System)
    requires Always(k, s) && Wins(k, s) && s.laneA.serverJob == Succeeded && StepA(Mirror(k), Swap(s), ServerCallback).Some?
    ensures Wins(k, Swap(StepA(Mirror(k), Swap(s), ServerCallback).value))
  {
    var t := Swap(StepA(Mirror(k), Swap(s), ServerCallback).value);
    SuccessEffect(s.b, k.idA);
    assert s.b.handed == multiset{};
    if k.idA in s.b.pending {
      assert s.b.pending[k.idA].channel == Some(k.otherB);
      assert t.b.handed == multiset{k.otherB};
    }
    assert t.a == s.a && t.laneB == s.laneB && t.laneA == s.laneA.(serverJob := Told(true));
    assert WinsAtB(k, t);
  }

  /** From `s` to `t` device `b` is told that a job of its failed, its own or the other one. */
  predicate FailureTold(k: Config, s: System, t: System, own: bool) {
    && t.a == s.a && EncryptionFailure(s.b, k.idA, if own then k.ownB else k.otherB) == Some(t.b)
    && (if own then
          s.laneB.clientJob == Failed && t.laneB == s.laneB.(clientJob := Told(false)) && t.laneA == s.laneA
        else
          s.laneA.serverJob == Failed && t.laneA == s.laneA.(serverJob := Told(false)) && t.laneB == s.laneB)
  }

  lemma FailureToldToB(k: Config, s: System, t: System, own: bool)
    requires Proper(k) && Always(k, s) && FailureTold(k, s, t, own)
    ensures Always(k, t)
  {
    var c := if own then k.ownB else k.otherB;
    FailureEffect(s.b, k.idA, c);
    FailureClient(s.b, k.idA, c);
    EncryptionMoves(s.b, OnFailure(k.idA, c), k.idA);
  }

  lemma FailureKeepsB(k: Config, s: System, t: System, own: bool)
    requires Proper(k) && Inv(k, s) && FailureTold(k, s, t, own)
    ensures Inv(k, t)
  {
    FailureToldToB(k, s, t, own);
    FailureEffect(s.b, k.idA, if own then k.ownB else k.otherB);
    if !s.laneB.unopposed {
      QuietAtB(k, s, t);
    }
  }

  lemma FailureAtB(k: Config, s: System, m: Move)
    requires Proper(k) && Inv(k, s) && StepA(Mirror(k), Swap(s), m).Some?
    requires (m.ClientCallback? && s.laneB.clientJob == Failed) || (m.ServerCallback? && s.laneA.serverJob == Failed)
    ensures Inv(k, Swap(StepA(Mirror(k), Swap(s), m).value))
  {
    var t := Swap(StepA(Mirror(k), Swap(s), m).value);
    assert FailureTold(k, s, t, m.ClientCallback?);
    FailureKeepsB(k, s, t, m.ClientCallback?);
  }

  /** Device `b` loses an entry, or nothing, and one of its jobs has failed. */
  lemma QuietAtB(k: Config, s: System, t: System)
    requires Wins(k, s) && t.a == s.a && t.b.handed == s.b.handed
    requires k.idA in t.b.pending ==> k.idA in s.b.pending && t.b.pending[k.idA] == s.b.pending[k.idA]
    requires t.laneA == s.laneA.(serverJob := t.laneA.serverJob) && t.laneB == s.laneB.(clientJob := t.laneB.clientJob)
    requires t.laneA.serverJob == s.laneA.serverJob || s.laneA.serverJob == Failed
    requires !Finished(t.laneB)
    ensures Wins(k, t)
  {
  }

  lemma FailureClient(s: State, e: Id, c: Channel)
    requires EncryptionFailure(s, e, c).Some?
    ensures EncryptionFailure(s, e, c).value.client == s.client
  {
  }

  lemma LocalAtB(k: Config, s: System, m: Move)
    requires Proper(k) && Inv(k, s) && m.Local? && StepA(Mirror(k), Swap(s), m).Some?
    ensures Inv(k, Swap(StepA(Mirror(k), Swap(s), m).value))
  {
    LocalEffect(s.b, m.ev, k.idA);
    StepMoves(s.b, m.ev, k.idA);
  }

  lemma StepOfB(k: Config, s: System, m: Move)
    requires Proper(k) && k.nonceA >= k.nonceB && Inv(k, s) && StepA(Mirror(k), Swap(s), m).Some?
    ensures Inv(k, Swap(StepA(Mirror(k), Swap(s), m).value))
  {
    match m
    case Deliver(_, _) => DeliverToB(k, s, m);
    case ClientCallback => if s.laneB.clientJob == Succeeded { SuccessAtB(k, s, m); } else { FailureAtB(k, s, m); }
    case ServerCallback => if s.laneA.serverJob == Succeeded { SuccessAtB(k, s, m); } else { FailureAtB(k, s, m); }
    case Local(_) => LocalAtB(k, s, m);
    case _ =>
  }

  // ---------------------------------------------------------------- every run

  lemma {:induction false} Reachable(k: Config, run: seq<System>, i: nat)
    requires Proper(k) && k.nonceA >= k.nonceB && IsRun(k, run) && i < |run|
    ensures Inv(k, run[i])
  {
    if i == 0 {
      StartInv(k);
    } else {
      Reachable(k, run, i - 1);
      var s, t := run[i - 1], run[i];
      assert Step(k, s, t);
      if m :| StepA(k, s, m) == Some(t) {
        StepOfA(k, s, m);
      } else {
        var m :| StepA(Mirror(k), Swap(s), m) == Some(Swap(t));
        StepOfB(k, s, m);
      }
    }
  }

  function SwapAll(run: seq<System>): seq<System> {
    seq(|run|, i requires 0 <= i < |run| => Swap(run[i]))
  }

  lemma MirrorRun(k: Config, run: seq<System>)
    requires IsRun(k, run)
    ensures IsRun(Mirror(k), SwapAll(run))
  {
    var other := SwapAll(run);
    forall i | 0 <= i < |other| - 1 ensures Step(Mirror(k), other[i], other[i + 1]) {
      assert Step(k, run[i], run[i + 1]);
      if m :| StepA(k, run[i], m) == Some(run[i + 1]) {
        assert StepA(Mirror(Mirror(k)), Swap(other[i]), m) == Some(Swap(other[i + 1]));
      } else {
        var m :| StepA(Mirror(k), Swap(run[i]), m) == Some(Swap(run[i + 1]));
        assert StepA(Mirror(k), other[i], m) == Some(other[i + 1]);
      }
    }
  }

  /** In every run a device hands over a channel only if the channel's request carried the
      higher nonce - or if it was read unopposed, by a device whose own request had
      failed, for whatever reason, and been reported failed. Otherwise the lower one never
      completes, and of two equal ones neither does. */
  lemma OnlyTheHigherNonceCompletes(k: Config, run: seq<System>, i: nat)
    requires Proper(k) && IsRun(k, run) && i < |run|
    ensures var s := run[i];
            && (forall c | c in s.a.handed :: (c == k.ownA && OnA(k, s)) || (c == k.otherA && OnB(k, s)))
            && (forall c | c in s.b.handed :: (c == k.ownB && OnB(k, s)) || (c == k.otherB && OnA(k, s)))
            && (s.laneA.unopposed ==> s.laneB.clientJob == Told(false))
            && (s.laneB.unopposed ==> s.laneA.clientJob == Told(false))
  {
    if k.nonceA >= k.nonceB {
      Reachable(k, run, i);
    }
    if k.nonceB >= k.nonceA {
      MirrorRun(k, run);
      Reachable(Mirror(k), SwapAll(run), i);
    }
    UnopposedIsTold(k, run, i);
  }

  /** Lane A may complete. */
  predicate OnA(k: Config, s: System) {
    k.nonceA > k.nonceB || s.laneA.unopposed
  }

  predicate OnB(k: Config, s: System) {
    k.nonceB > k.nonceA || s.laneB.unopposed
  }

  lemma {:induction false} UnopposedIsTold(k: Config, run: seq<System>, i: nat)
    requires IsRun(k, run) && i < |run|
    ensures run[i].laneA.unopposed ==> run[i].laneB.clientJob == Told(false)
    ensures run[i].laneB.unopposed ==> run[i].laneA.clientJob == Told(false)
  {
    if i > 0 {
      UnopposedIsTold(k, run, i - 1);
      var s, t := run[i - 1], run[i];
      assert Step(k, s, t);
      if m :| StepA(k, s, m) == Some(t) {
        MoveKeepsTold(k, s, m);
      } else {
        var m :| StepA(Mirror(k), Swap(s), m) == Some(Swap(t));
        MoveKeepsTold(Mirror(k), Swap(s), m);
      }
    }
  }

  lemma MoveKeepsTold(k: Config, s: System, m: Move)
    requires StepA(k, s, m).Some?
    ensures var t := StepA(k, s, m).value;
            && (s.laneA.clientJob.Told? ==> t.laneA.clientJob == s.laneA.clientJob) && t.laneB.clientJob == s.laneB.clientJob
            && t.laneA.unopposed == s.laneA.unopposed
            && (t.laneB.unopposed ==> s.laneB.unopposed || s.laneA.clientJob == Told(false))
  {
  }

  /** In every run a success callback finds the handshake it belongs to, or none, unless the
      request of lane B was read unopposed. */
  lemma SuccessIsNeverStale(k: Config, run: seq<System>, i: nat)
    requires Proper(k) && k.nonceA >= k.nonceB && IsRun(k, run) && i < |run|
    ensures var s := run[i];
            || s.laneB.unopposed
            || (&& (s.laneA.clientJob == Succeeded && k.idB in s.a.pending ==> s.a.pending[k.idB].channel == Some(k.ownA))
                && (s.laneA.serverJob == Succeeded && k.idA in s.b.pending ==> s.b.pending[k.idA].channel == Some(k.otherB))
                && s.laneB.clientJob != Succeeded && s.laneB.serverJob != Succeeded)
  {
    Reachable(k, run, i);
  }

  /** When the failure of the losing lane is due at the device that lost its own request:
      its callback reads a channel that is gone exactly if the other request was read by
      then. Were that channel still readable, the callback would dereference a null channel
      exactly if the winner was handed over; and otherwise the winner would stay exactly if
      the two channels do not compare equal. */
  lemma LateFailure(k: Config, run: seq<System>, i: nat)
    requires Proper(k) && k.nonceA >= k.nonceB && IsRun(k, run) && i < |run| && run[i].laneB.clientJob == Failed
    ensures Destroyed(run[i].b, k.ownB) <==> run[i].laneA.delivered
    ensures var b := run[i].b;
            var next := EncryptionFailure(b, k.idA, k.ownB);
            run[i].laneA.delivered && k.idA in b.pending ==>
              && (next.None? <==> b.pending[k.idA].channel.None?)
              && (next.Some? ==>
                    && b.pending[k.idA].channel == Some(k.otherB)
                    && (k.idA in next.value.pending <==> !SameChannel(k.ownB, k.otherB))
                    && (!SameChannel(k.ownB, k.otherB) ==> next.value == b))
  {
    Reachable(k, run, i);
    OneEndpoint(k, run, i);
    var b := run[i].b;
    if Owned(b.pending, k.ownB) {
      var d :| Handshaking(b.pending, d) && b.pending[d].channel.value == k.ownB;
    }
    assert Handshaking(b.pending, k.idA) ==> Owned(b.pending, b.pending[k.idA].channel.value);
    assert forall x :: x in b.manager ==> Managed(b, x);
  }

  /** The device has nothing to do with a third one, and its channel manager holds only what
      it was handed. */
  ghost predicate Alone(d: State, e: Id) {
    (forall x :: x != e ==> !Handshaking(d.pending, x)) && (forall x :: Managed(d, x))
  }

  lemma EventKeepsAlone(d: State, ev: Event, e: Id)
    requires Alone(d, e) && Next(d, ev).Some? && (Target(ev).Some? ==> Target(ev).value.0 == e)
    ensures Alone(Next(d, ev).value, e)
  {
    var t := Next(d, ev).value;
    forall x ensures (x != e ==> !Handshaking(t.pending, x)) && Managed(t, x) {
      assert Managed(d, x);
      StepMoves(d, ev, x);
      StepComes(d, ev, x);
    }
  }

  /** The event of the handler behind a move, if there is one. */
  function EventOf(k: Config, s: System, m: Move): Option<Event> {
    match m
    case Deliver(allowed, typeOk) => Some(OnIncoming(k.otherA, true, Some((k.idB, k.nonceB)), allowed, typeOk))
    case ClientCallback => Some(if s.laneA.clientJob == Succeeded then OnSuccess(k.idB, true) else OnFailure(k.idB, k.ownA))
    case ServerCallback => Some(if s.laneB.serverJob == Succeeded then OnSuccess(k.idB, true) else OnFailure(k.idB, k.otherA))
    case Local(ev) => Some(ev)
    case _ => None
  }

  lemma MoveIsEvent(k: Config, s: System, m: Move)
    requires StepA(k, s, m).Some?
    ensures var t := StepA(k, s, m).value;
            t.b == s.b && if EventOf(k, s, m).Some? then Next(s.a, EventOf(k, s, m).value) == Some(t.a) else t.a == s.a
    ensures EventOf(k, s, m).Some? && Target(EventOf(k, s, m).value).Some? ==> Target(EventOf(k, s, m).value).value.0 == k.idB
  {
  }

  lemma MoveKeepsAlone(k: Config, s: System, m: Move)
    requires Alone(s.a, k.idB) && StepA(k, s, m).Some?
    ensures Alone(StepA(k, s, m).value.a, k.idB) && StepA(k, s, m).value.b == s.b
  {
    MoveIsEvent(k, s, m);
    if EventOf(k, s, m).Some? {
      EventKeepsAlone(s.a, EventOf(k, s, m).value, k.idB);
    }
  }

  lemma {:induction false} OneEndpoint(k: Config, run: seq<System>, i: nat)
    requires IsRun(k, run) && i < |run|
    ensures Alone(run[i].a, k.idB) && Alone(run[i].b, k.idA)
  {
    if i > 0 {
      OneEndpoint(k, run, i - 1);
      var s, t := run[i - 1], run[i];
      assert Step(k, s, t);
      if m :| StepA(k, s, m) == Some(t) {
        MoveKeepsAlone(k, s, m);
      } else {
        var m :| StepA(Mirror(k), Swap(s), m) == Some(Swap(t));
        MoveKeepsAlone(Mirror(k), Swap(s), m);
      }
    }
  }

  /** Nothing else that can come next dereferences a null channel, unless the request of
      lane B was read unopposed: neither a request that is still to be read, nor any other
      callback that is due. */
  lemma OnlyTheLateFailureTraps(k: Config, run: seq<System>, i: nat, allowed: bool, typeOk: bool)
    requires Proper(k) && k.nonceA >= k.nonceB && IsRun(k, run) && i < |run|
    ensures var s := run[i];
            || s.laneB.unopposed
            || (&& (!s.laneA.delivered ==> Incoming(s.b, k.otherB, true, Some((k.idA, k.nonceA)), allowed, typeOk).Some?)
                && (!s.laneB.delivered ==> Incoming(s.a, k.otherA, true, Some((k.idB, k.nonceB)), allowed, typeOk).Some? || s.laneA.unopposed)
                && (Due(s.laneA.clientJob) ==> Callback(s.a, k.idB, s.laneA.clientJob, k.ownA).Some?)
                && (Due(s.laneA.serverJob) ==> Callback(s.b, k.idA, s.laneA.serverJob, k.otherB).Some?)
                && (Due(s.laneB.serverJob) ==> Callback(s.a, k.idB, s.laneB.serverJob, k.otherA).Some?)
                && (Due(s.laneB.clientJob) && Callback(s.b, k.idA, s.laneB.clientJob, k.ownB).None? ==>
                      s.laneB.clientJob == Failed && s.laneA.delivered))
  {
    Reachable(k, run, i);
    OnlyTheHigherNonceCompletes(k, run, i);
    var s := run[i];
    if !s.laneB.unopposed && !s.laneA.unopposed {
      assert k.nonceA == k.nonceB ==> s.a.handed == multiset{};
    }
    if !s.laneB.unopposed {
      DeliveryIsSafe(k, s, allowed, typeOk);
    }
  }

  predicate Due(job: Job) {
    job == Succeeded || job == Failed
  }

  lemma DeliveryIsSafe(k: Config, s: System, allowed: bool, typeOk: bool)
    requires Proper(k) && k.nonceA >= k.nonceB && Inv(k, s) && !s.laneB.unopposed
    ensures !s.laneA.delivered ==> Incoming(s.b, k.otherB, true, Some((k.idA, k.nonceA)), allowed, typeOk).Some?
    ensures !s.laneB.delivered && (k.nonceA == k.nonceB ==> s.a.handed == multiset{}) ==>
              Incoming(s.a, k.otherA, true, Some((k.idB, k.nonceB)), allowed, typeOk).Some?
  {
  }

  // ---------------------------------------------------------------- runs that complete

  lemma Extend(k: Config, run: seq<System>, t: System)
    requires IsRun(k, run) && Step(k, run[|run| - 1], t)
    ensures IsRun(k, run + [t])
  {
    var more := run + [t];
    forall i | 0 <= i < |more| - 1 ensures Step(k, more[i], more[i + 1]) {
      if i < |run| - 1 {
        assert Step(k, run[i], run[i + 1]);
      }
    }
  }

  lemma MoveOfA(k: Config, run: seq<System>, m: Move) returns (more: seq<System>)
    requires IsRun(k, run) && StepA(k, run[|run| - 1], m).Some?
    ensures IsRun(k, more) && more != [] && StepA(k, run[|run| - 1], m) == Some(more[|more| - 1])
  {
    var t := StepA(k, run[|run| - 1], m).value;
    Extend(k, run, t);
    more := run + [t];
  }

  lemma MoveOfB(k: Config, run: seq<System>, m: Move) returns (more: seq<System>)
    requires IsRun(k, run) && StepA(Mirror(k), Swap(run[|run| - 1]), m).Some?
    ensures IsRun(k, more) && more != [] && StepA(Mirror(k), Swap(run[|run| - 1]), m) == Some(Swap(more[|more| - 1]))
  {
    var t := Swap(StepA(Mirror(k), Swap(run[|run| - 1]), m).value);
    assert Swap(t) == StepA(Mirror(k), Swap(run[|run| - 1]), m).value;
    Extend(k, run, t);
    more := run + [t];
  }

  lemma HigherNonceArrives(k: Config) returns (run: seq<System>)
    requires Proper(k) && k.nonceA > k.nonceB
    ensures IsRun(k, run) && run != []
    ensures var s := run[|run| - 1];
            && s.a == Start(k).a && s.laneA == Lane(true, false, Running, Running) && s.laneB == Lane(false, false, Running, Idle)
            && s.b.closed == {k.ownB} && s.b.handed == multiset{}
            && k.idA in s.b.pending && s.b.pending[k.idA].channel == Some(k.otherB)
  {
    run := [Start(k)];
    run := MoveOfB(k, run, Deliver(true, true));
  }

  /** The first half: `b` gives up its own request for the other one, its own handshake
      fails, and the other one succeeds at both ends. */
  lemma BothShakeHands(k: Config) returns (run: seq<System>)
    requires Proper(k) && k.nonceA > k.nonceB
    ensures IsRun(k, run) && run != []
    ensures var s := run[|run| - 1];
            && s.laneA == Lane(true, false, Succeeded, Succeeded) && s.laneB == Lane(false, false, Failed, Idle)
            && k.idB in s.a.pending && s.a.pending[k.idB].channel == Some(k.ownA) && s.a.handed == multiset{}
            && k.idA in s.b.pending && s.b.pending[k.idA].channel == Some(k.otherB) && s.b.handed == multiset{}
  {
    run := HigherNonceArrives(k);
    run := MoveOfB(k, run, ClientFails);
    run := MoveOfA(k, run, ClientSucceeds);
    run := MoveOfB(k, run, ServerSucceeds);
  }

  /** With different nonces there is a run in which both devices end up on the channel
      with the higher one; and in that run the late failure of the other channel
      dereferences a null channel. */
  lemma TheHigherNonceCanComplete(k: Config) returns (run: seq<System>)
    requires Proper(k) && k.nonceA > k.nonceB
    ensures IsRun(k, run) && run != []
    ensures var s := run[|run| - 1];
            && s.a.handed == multiset{k.ownA} && s.b.handed == multiset{k.otherB}
            && !s.laneA.unopposed && !s.laneB.unopposed
            && s.laneB.clientJob == Failed && Callback(s.b, k.idA, Failed, k.ownB).None?
  {
    run := BothShakeHands(k);
    var s := run[|run| - 1];
    SuccessEffect(s.a, k.idB);
    SuccessEffect(s.b, k.idA);
    run := MoveOfA(k, run, ClientCallback);
    run := MoveOfB(k, run, ServerCallback);
  }

  /** Device `b` before it hears of anything. */
  predicate Untouched(k: Config, b: State) {
    && k.idA in b.pending && b.pending[k.idA].channel == Some(k.ownB) && b.pending[k.idA].nonce == k.nonceB
    && k.idA !in b.client && b.handed == multiset{} && b.closed == {}
  }

  /** Device `a` is told that its own request failed, and then reads the other one. */
  lemma ReadUnopposed(k: Config) returns (run: seq<System>)
    requires Proper(k)
    ensures IsRun(k, run) && run != []
    ensures var s := run[|run| - 1];
            && s.laneA == Lane(false, false, Told(false), Idle) && s.laneB == Lane(true, true, Succeeded, Running)
            && Untouched(k, s.b) && s.a.handed == multiset{}
            && k.idB in s.a.pending && s.a.pending[k.idB].channel == Some(k.otherA)
  {
    run := [Start(k)];
    run := MoveOfA(k, run, ClientFails);
    run := OwnFailureTold(k, run);
    run := MoveOfA(k, run, Deliver(true, true));
    run := MoveOfB(k, run, ClientSucceeds);
  }

  lemma OwnFailureTold(k: Config, run: seq<System>) returns (more: seq<System>)
    requires Proper(k) && IsRun(k, run) && run[|run| - 1] == Start(k).(laneA := Lane(false, false, Failed, Idle))
    ensures IsRun(k, more) && more != []
    ensures var s := more[|more| - 1];
            && s.laneA == Lane(false, false, Told(false), Idle) && s.laneB == Lane(false, false, Running, Idle) && Untouched(k, s.b)
            && s.a.pending == map[] && s.a.client == map[] && s.a.handed == multiset{}
  {
    var a := Start(k).a;
    FailInitiationPending(a, k.idB, a.pending[k.idB].channel, EndpointIoError, a.pending[k.idB].result);
    FailureEffect(a, k.idB, k.ownA);
    FailureClient(a, k.idB, k.ownA);
    more := MoveOfA(k, run, ClientCallback);
  }

  lemma HandedOverTraps(k: Config, b: State)
    requires Proper(k) && Untouched(k, b)
    ensures EncryptionSuccess(b, k.idA, true).Some? && EncryptionSuccess(b, k.idA, true).value.handed == multiset{k.ownB}
    ensures k.nonceA >= k.nonceB ==>
              Incoming(EncryptionSuccess(b, k.idA, true).value, k.otherB, true, Some((k.idA, k.nonceA)), true, true).None?
  {
    var t := EncryptionSuccess(b, k.idA, true).value;
    assert t.pending[k.idA].channel.None? && t.pending[k.idA].nonce == k.nonceB && !IsConnected(t, k.idA);
  }

  lemma OwnSuccessTold(k: Config, run: seq<System>) returns (more: seq<System>)
    requires Proper(k) && IsRun(k, run) && Untouched(k, run[|run| - 1].b) && run[|run| - 1].laneB.clientJob == Succeeded
    ensures IsRun(k, more) && more != []
    ensures var s, t := run[|run| - 1], more[|more| - 1];
            && t.a == s.a && t.laneA == s.laneA && t.laneB == s.laneB.(clientJob := Told(true))
            && Some(t.b) == EncryptionSuccess(s.b, k.idA, true)
  {
    HandedOverTraps(k, run[|run| - 1].b);
    more := MoveOfB(k, run, ClientCallback);
  }

  /** The exception is real: a request read unopposed completes on both devices, whatever
      the nonces; and if it has the lower one, or an equal one, the other request then
      makes its reader dereference a null channel. */
  lemma UnopposedCanComplete(k: Config) returns (run: seq<System>)
    requires Proper(k)
    ensures IsRun(k, run) && run != []
    ensures var s := run[|run| - 1];
            && s.laneB.unopposed && s.a.handed == multiset{k.otherA} && s.b.handed == multiset{k.ownB}
            && !s.laneA.delivered
            && (k.nonceA >= k.nonceB ==> Incoming(s.b, k.otherB, true, Some((k.idA, k.nonceA)), true, true).None?)
  {
    run := ReadUnopposed(k);
    var s := run[|run| - 1];
    run := MoveOfA(k, run, ServerSucceeds);
    run := OwnSuccessTold(k, run);
    HandedOverTraps(k, s.b);
    SuccessEffect(s.a, k.idB);
    run := MoveOfA(k, run, ServerCallback);
  }

  lemma OtherRequestRead(k: Config, run: seq<System>) returns (more: seq<System>)
    requires Proper(k) && k.nonceA > k.nonceB && IsRun(k, run)
    requires Untouched(k, run[|run| - 1].b) && !run[|run| - 1].laneA.delivered
    ensures IsRun(k, more) && more != []
    ensures var s, t := run[|run| - 1], more[|more| - 1];
            && t.laneA.serverJob == Running && t.laneB == s.laneB && t.b.handed == multiset{}
            && k.idA in t.b.pending && t.b.pending[k.idA].channel == Some(k.otherB)
  {
    var b := run[|run| - 1].b;
    GivesUp(k, b);
    more := MoveOfB(k, run, Deliver(true, true));
  }

  lemma GivesUp(k: Config, b: State)
    requires k.nonceA > k.nonceB && Untouched(k, b)
    ensures Incoming(b, k.otherB, true, Some((k.idA, k.nonceA)), true, true).Some?
    ensures var t := Incoming(b, k.otherB, true, Some((k.idA, k.nonceA)), true, true).value;
            t.jobs != b.jobs && t.handed == multiset{} && k.idA in t.pending && t.pending[k.idA].channel == Some(k.otherB)
  {
    var g := b.(created := b.created + 1);
    LoseTieEffect(g, k.idA);
    var t := LoseTie(g, k.idA).value;
    assert Incoming(b, k.otherB, true, Some((k.idA, k.nonceA)), true, true) ==
           Some(StartJob(Emplace(t, k.idA, Pending(k.nonceA, true, None, Some(k.otherB), false)), k.idA));
  }

  /** So is a stale success: the device with the lower nonce, told that its own handshake
      succeeded just after it gave its request up for the other one, hands over the other
      request's channel, on which no handshake was completed. */
  lemma StaleSuccessHandsOverTheOther(k: Config) returns (run: seq<System>)
    requires Proper(k) && k.nonceA > k.nonceB
    ensures IsRun(k, run) && run != []
    ensures var s := run[|run| - 1];
            s.laneB.unopposed && s.b.handed == multiset{k.otherB} && s.laneA.serverJob == Running && s.laneB.clientJob == Told(true)
  {
    run := ReadUnopposed(k);
    run := OtherRequestRead(k, run);
    SuccessEffect(run[|run| - 1].b, k.idA);
    run := MoveOfB(k, run, ClientCallback);
  }
}
