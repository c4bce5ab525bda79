/**
  The bookkeeping of one device's connection handler, as values: the pending
  connections, what the client proxy and the channel manager hold, and a record of
  the effects that matter (channels closed, channels handed over, futures set).

  Every handler runs as one task on a serial executor, so each is one step.  A
  step is `None` where the code dereferences a null pointer.
*/
module PcpState {
  import opened Options
  import opened Mediums

  type Id = string
  type Future = nat

  /** A channel has an identity, but the code compares only name and medium. */
  datatype Channel = Channel(id: nat, name: string, medium: Medium)

  predicate SameChannel(a: Channel, b: Channel) {
    a.name == b.name && a.medium == b.medium
  }

  datatype Status =
    | Success | Error | AlreadyConnectedToEndpoint | OutOfOrderApiCall
    | EndpointUnknown | EndpointIoError | ConnectionRejected

  datatype Pending = Pending(
    nonce: int,
    incoming: bool,
    result: Option<Future>,
    channel: Option<Channel>,
    ukey2: bool)

  /** The client proxy's record of a connection: one optional answer per side, and
      the "connected" bit. */
  datatype Connection = Connection(local: Option<bool>, remote: Option<bool>, connected: bool)

  datatype Report = Accepted(id: Id) | Rejected(id: Id, status: Status)

  datatype State = State(
    pending: map<Id, Pending>,
    client: map<Id, Connection>,
    manager: map<Id, Channel>,
    encrypted: set<Channel>,
    contexts: set<Id>,
    closed: set<Channel>,
    handed: multiset<Channel>,
    entered: set<Channel>,
    settled: multiset<Future>,
    outcome: map<Future, Status>,
    asked: map<Future, Channel>,
    calls: nat,
    created: nat,
    jobs: seq<(Id, Option<Channel>)>,
    reports: seq<Report>)

  function Initial(): State {
    State(map[], map[], map[], {}, {}, {}, multiset{}, {}, multiset{}, map[], map[], 0, 0, [], [])
  }

  // ---------------------------------------------------------------- effects

  function Elements<T>(o: Option<T>): set<T> {
    if o.Some? then {o.value} else {}
  }

  function CloseChannel(s: State, c: Option<Channel>): State {
    s.(closed := s.closed + Elements(c))
  }

  /** Future::Set: every call is counted, the first value stays. */
  function SetFuture(s: State, f: Option<Future>, status: Status): State {
    s.(settled := s.settled + multiset(Elements(f)),
       outcome := if f.None? || f.value in s.outcome then s.outcome else s.outcome[f.value := status])
  }

  /** The future of an entry, unless it is set already. */
  function Unanswered(s: State, p: Pending): Option<Future> {
    if p.result.Some? && p.result.value in s.settled then None else p.result
  }

  /** ~PendingConnectionInfo. */
  function Destroy(s: State, p: Pending): State {
    CloseChannel(SetFuture(s, Unanswered(s, p), Error), p.channel)
  }

  function Erase(s: State, e: Id): State {
    if e in s.pending then Destroy(s.(pending := s.pending - {e}), s.pending[e]) else s
  }

  /** emplace: an existing entry stays, and the new one is destroyed. */
  function Emplace(s: State, e: Id, p: Pending): State {
    if e in s.pending then Destroy(s, p)
    else s.(pending := s.pending[e := p],
            entered := if p.channel.Some? then s.entered + {p.channel.value} else s.entered,
            asked := if p.result.Some? && p.channel.Some? then s.asked[p.result.value := p.channel.value] else s.asked)
  }

  /** Start the encryption runner on the channel of the entry just looked up. */
  function StartJob(s: State, e: Id): State
    requires e in s.pending
  {
    s.(jobs := s.jobs + [(e, s.pending[e].channel)])
  }

  // ---------------------------------------------------------------- client proxy

  /** status == kConnected, with no answer bit set. */
  predicate IsConnected(s: State, e: Id) {
    e in s.client && s.client[e] == Connection(None, None, true)
  }

  predicate HasPendingConnection(s: State, e: Id) {
    e in s.client && s.client[e] != Connection(None, None, true)
  }

  predicate IsAccepted(s: State, e: Id) {
    e in s.client && s.client[e].local == Some(true) && s.client[e].remote == Some(true)
  }

  predicate IsRejected(s: State, e: Id) {
    e in s.client && (s.client[e].local == Some(false) || s.client[e].remote == Some(false))
  }

  function LocalAnswer(s: State, e: Id, accept: bool): State {
    if e in s.client && s.client[e].local.None?
    then s.(client := s.client[e := s.client[e].(local := Some(accept))]) else s
  }

  function RemoteAnswer(s: State, e: Id, accept: bool): State {
    if e in s.client && s.client[e].remote.None?
    then s.(client := s.client[e := s.client[e].(remote := Some(accept))]) else s
  }

  function ClientInitiated(s: State, e: Id): State {
    if e in s.client then s else s.(client := s.client[e := Connection(None, None, false)])
  }

  function ClientAccepted(s: State, e: Id): State {
    if HasPendingConnection(s, e)
    then s.(client := s.client[e := Connection(None, None, true)], reports := s.reports + [Accepted(e)]) else s
  }

  function ClientRejected(s: State, e: Id, status: Status): State {
    if HasPendingConnection(s, e)
    then s.(client := s.client - {e}, reports := s.reports + [Rejected(e, status)]) else s
  }

  // ---------------------------------------------------------------- failures

  /** ProcessPreConnectionInitiationFailure. */
  function FailInitiation(s: State, e: Id, c: Option<Channel>, status: Status, f: Option<Future>): State {
    Erase(SetFuture(CloseChannel(s, c), f, status), e)
  }

  /** ProcessPreConnectionResultFailure. */
  function FailResult(s: State, e: Id): State {
    ClientRejected(Erase(s, e), e, Error)
  }

  /** ProcessTieBreakLoss reads the medium of the entry's channel. */
  function LoseTie(s: State, e: Id): Option<State>
    requires e in s.pending
  {
    var p := s.pending[e];
    if p.channel.None? then None
    else Some(FailResult(FailInitiation(s, e, p.channel, EndpointIoError, p.result), e))
  }

  datatype Tie = Proceed(state: State) | Killed(state: State) | Crash

  /** BreakTie: the lower nonce loses, equal nonces lose both. */
  function BreakTie(s: State, e: Id, nonce: int, c: Channel): Tie {
    if e !in s.pending then Proceed(s)
    else if s.pending[e].nonce > nonce then Killed(CloseChannel(s, Some(c)))
    else if s.pending[e].nonce < nonce then
      match LoseTie(s, e) case None => Crash case Some(t) => Proceed(t)
    else
      match LoseTie(CloseChannel(s, Some(c)), e) case None => Crash case Some(t) => Killed(t)
  }

  // ---------------------------------------------------------------- handlers

  /** What the medium-specific connect attempts produced. */
  datatype Attempt = NoChannel(status: Status) | Obtained(channel: Channel)

  /** A request that ends before a channel is sought. */
  function Refuse(s: State, status: Status): State {
    SetFuture(s.(calls := s.calls + 1), Some(s.calls), status)
  }

  /** RequestConnection; the future of a call is its number. */
  function Request(s: State, e: Id, allowed: bool, known: bool, attempt: Attempt, writeOk: bool, nonce: int): State {
    if e in s.pending then Refuse(s, AlreadyConnectedToEndpoint)
    else if !allowed then Refuse(s, OutOfOrderApiCall)
    else if !known then Refuse(s, EndpointUnknown)
    else match attempt
      case NoChannel(status) => FailInitiation(s.(calls := s.calls + 1), e, None, status, Some(s.calls))
      case Obtained(c) => RequestOver(s.(created := s.created + 1, calls := s.calls + 1), s.calls, e, c, writeOk, nonce)
  }

  /** The rest of request `f`, once it has its channel. */
  function RequestOver(s: State, f: Future, e: Id, c: Channel, writeOk: bool, nonce: int): State {
    if !writeOk then FailInitiation(s, e, Some(c), EndpointIoError, Some(f))
    else StartJob(Emplace(s, e, Pending(nonce, false, Some(f), Some(c), false)), e)
  }

  /** OnIncomingConnection; `request` is the endpoint id and nonce of the request
      frame, or None where no such frame could be read. */
  function Incoming(s: State, c: Channel, listening: bool, request: Option<(Id, int)>, allowed: bool, typeOk: bool): Option<State> {
    var s := s.(created := s.created + 1);
    if !listening then Some(s)
    else if request.None? then Some(FailInitiation(s, "", Some(c), Error, None))
    else IncomingRequest(s, c, request.value.0, request.value.1, allowed && typeOk)
  }

  /** The rest of an incoming connection, once its request frame is read. */
  function IncomingRequest(s: State, c: Channel, e: Id, nonce: int, welcome: bool): Option<State> {
    if IsConnected(s, e) then Some(s)
    else match BreakTie(s, e, nonce, c)
      case Crash => None
      case Killed(t) => Some(t)
      case Proceed(t) =>
        if !welcome then Some(t)
        else Some(StartJob(Emplace(t, e, Pending(nonce, true, None, Some(c), false)), e))
  }

  /** RegisterChannelForEndpoint: the channel manager takes the channel, and encrypts it at
      once if it still keeps a context for the endpoint. */
  function Register(s: State, e: Id, c: Channel): State {
    s.(manager := s.manager[e := c],
       encrypted := if e in s.contexts then s.encrypted + {c} else s.encrypted,
       handed := s.handed + multiset{c})
  }

  /** The channel leaves the entry for the endpoint manager, which registers it with
      the channel manager and tells the client. */
  function HandOver(s: State, e: Id): State
    requires e in s.pending && s.pending[e].channel.Some?
  {
    var p := s.pending[e];
    var t := ClientInitiated(Register(s, e, p.channel.value), e);
    SetFuture(t.(pending := s.pending[e := p.(channel := None, ukey2 := true, result := None)]), p.result, Success)
  }

  function EncryptionSuccess(s: State, e: Id, hasKey: bool): Option<State> {
    if e !in s.pending then Some(s)
    else if s.pending[e].channel.None? then None
    else if !hasKey then Some(FailInitiation(s, e, s.pending[e].channel, EndpointIoError, s.pending[e].result))
    else Some(HandOver(s, e))
  }

  function EncryptionFailure(s: State, e: Id, c: Channel): Option<State> {
    if e !in s.pending then Some(s)
    else if s.pending[e].channel.None? then None
    else if !SameChannel(c, s.pending[e].channel.value) then Some(s)
    else Some(FailInitiation(s, e, s.pending[e].channel, EndpointIoError, s.pending[e].result))
  }

  /** EncryptChannelForEndpoint: the channel manager keeps the context, with or without a
      channel to encrypt. */
  function Encrypt(s: State, e: Id): State {
    s.(contexts := s.contexts + {e}, encrypted := if e in s.manager then s.encrypted + {s.manager[e]} else s.encrypted)
  }

  /** What a decided connection leaves behind: its entry is out of the map, and the client
      is told. */
  function Decide(s: State, e: Id): State {
    var t := s.(pending := s.pending - {e});
    if !IsAccepted(s, e) then ClientRejected(t, e, ConnectionRejected)
    else if e in s.manager then ClientAccepted(Encrypt(t, e), e)
    else ClientRejected(Encrypt(t, e), e, EndpointUnknown)
  }

  /** EvaluateConnectionResult; a missing handshake is a null dereference. */
  function Evaluate(s: State, e: Id): Option<State> {
    if !IsAccepted(s, e) && !IsRejected(s, e) then Some(s)
    else if e !in s.pending then Some(s)
    else if IsAccepted(s, e) && !s.pending[e].ukey2 then None
    else Some(Destroy(Decide(s, e), s.pending[e]))
  }

  /** AcceptConnection and RejectConnection. */
  function Answer(s: State, e: Id, accept: bool, writeOk: bool): Option<State> {
    if e !in s.pending then Some(s)
    else if e !in s.manager || !writeOk then Some(FailResult(s, e))
    else Evaluate(LocalAnswer(s, e, accept), e)
  }

  /** OnIncomingFrame, for a connection response. */
  function Response(s: State, e: Id, accept: bool): Option<State> {
    if e in s.client && s.client[e].remote.Some? then Some(s)
    else Evaluate(RemoteAnswer(s, e, accept), e)
  }

  datatype Event =
    | OnRequest(e: Id, allowed: bool, known: bool, attempt: Attempt, writeOk: bool, nonce: int)
    | OnIncoming(channel: Channel, listening: bool, request: Option<(Id, int)>, allowed: bool, typeOk: bool)
    | OnSuccess(e: Id, hasKey: bool)
    | OnFailure(e: Id, channel: Channel)
    | OnAnswer(e: Id, accept: bool, writeOk: bool)
    | OnResponse(e: Id, accept: bool)
    | OnDisconnect(e: Id)
    | OnUnregister(e: Id)
    | OnClientGone(e: Id)

  /** A new channel is new, and a failed connect attempt has a failure status. */
  predicate Enabled(s: State, ev: Event) {
    match ev
    case OnRequest(_, _, _, Obtained(c), _, _) => c.id == s.created
    case OnRequest(_, _, _, NoChannel(status), _, _) => status != Success
    case OnIncoming(c, _, _, _, _) => c.id == s.created
    case _ => true
  }

  function Next(s: State, ev: Event): Option<State> {
    match ev
    case OnRequest(e, allowed, known, attempt, writeOk, nonce) => Some(Request(s, e, allowed, known, attempt, writeOk, nonce))
    case OnIncoming(c, listening, request, allowed, typeOk) => Incoming(s, c, listening, request, allowed, typeOk)
    case OnSuccess(e, hasKey) => EncryptionSuccess(s, e, hasKey)
    case OnFailure(e, c) => EncryptionFailure(s, e, c)
    case OnAnswer(e, accept, writeOk) => Answer(s, e, accept, writeOk)
    case OnResponse(e, accept) => Response(s, e, accept)
    case OnDisconnect(e) => Some(FailResult(s, e))
    case OnUnregister(e) => Some(s.(manager := s.manager - {e}, contexts := s.contexts - {e}))
    case OnClientGone(e) => Some(s.(client := s.client - {e}))
  }

  /** States and the events between them. */
  datatype Run = Run(states: seq<State>, events: seq<Event>)

  ghost predicate IsRun(r: Run) {
    && |r.states| == |r.events| + 1
    && r.states[0] == Initial()
    && forall i :: 0 <= i < |r.events| ==> IsStep(r.states[i], r.events[i], r.states[i + 1])
  }

  predicate IsStep(s: State, ev: Event, t: State) {
    Enabled(s, ev) && Next(s, ev) == Some(t)
  }
}
