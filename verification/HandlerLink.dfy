/**
  The device of `SwitchOver` is the handler of `PcpState`, seen through one endpoint: what
  the one does when an answer is recorded, the other does.
*/
module HandlerLink {
  import opened Options
  import opened PcpState
  import opened PcpTheorems
  import SwitchOver

  type Device = SwitchOver.Device

  /** This device's answer, as far as the client proxy knows it. */
  function Recorded(d: Device): Option<bool> {
    if d.local.Answered? then Some(d.local.accept) else None
  }

  /** The handler's books about `e` tell the same as the device. */
  predicate Matches(s: State, e: Id, d: Device) {
    match d.report
    case None =>
      && e in s.client && s.client[e] == Connection(Recorded(d), d.remote, false)
      && e in s.pending && s.pending[e].ukey2 && s.pending[e].channel.None? && s.pending[e].result.None?
      && e in s.manager && (d.encrypted <==> s.manager[e] in s.encrypted)
    case Some(Accepted) =>
      && e in s.client && s.client[e] == Connection(None, None, true)
      && e !in s.pending
      && e in s.manager && d.encrypted && s.manager[e] in s.encrypted
    case Some(_) => e !in s.client && e !in s.pending
  }

  /** What the client was told, given the device's report. */
  function Told(report: Option<SwitchOver.Report>, e: Id): seq<Report> {
    match report
    case None => []
    case Some(Accepted) => [Accepted(e)]
    case Some(Rejected) => [Rejected(e, ConnectionRejected)]
    case Some(Failed) => [Rejected(e, Error)]
  }

  /** The report a device makes between two of its states. */
  function NewReport(d: Device, d': Device, e: Id): seq<Report> {
    if d.report.Some? then [] else Told(d'.report, e)
  }

  /** A channel just handed over, for an endpoint new to the client, is a fresh device. */
  lemma HandOverMatches(s: State, e: Id)
    requires e in s.pending && s.pending[e].channel.Some? && e !in s.client && e !in s.contexts && s.pending[e].channel.value !in s.encrypted
    ensures Matches(HandOver(s, e), e, SwitchOver.Fresh())
  {
  }

  /** An entry that is awaiting answers has nothing left to close or to set. */
  lemma NothingToDestroy(s: State, p: Pending)
    requires p.channel.None? && p.result.None?
    ensures Destroy(s, p) == s
  {
    assert s.settled + multiset(Elements<Future>(None)) == s.settled && s.closed + Elements<Channel>(None) == s.closed;
  }

  lemma AcceptedMatches(s: State, e: Id, d: Device)
    requires d.report.None? && Matches(s, e, d) && IsAccepted(s, e)
    ensures Evaluate(s, e).Some? && Matches(Evaluate(s, e).value, e, d.(encrypted := true, report := Some(SwitchOver.Accepted)))
    ensures Evaluate(s, e).value.reports == s.reports + [Accepted(e)]
  {
    NothingToDestroy(Decide(s, e), s.pending[e]);
  }

  lemma RejectedMatches(s: State, e: Id, d: Device)
    requires d.report.None? && Matches(s, e, d) && IsRejected(s, e)
    ensures Evaluate(s, e).Some? && Matches(Evaluate(s, e).value, e, d.(report := Some(SwitchOver.Rejected)))
    ensures Evaluate(s, e).value.reports == s.reports + [Rejected(e, ConnectionRejected)]
  {
    NothingToDestroy(Decide(s, e), s.pending[e]);
  }

  /** Evaluating an undecided connection: the same decision, the same report. */
  lemma EvaluateMatches(s: State, e: Id, d: Device)
    requires d.report.None? && Matches(s, e, d)
    ensures var t, d' := Evaluate(s, e), SwitchOver.Evaluate(d);
            t.Some? && Matches(t.value, e, d') && t.value.reports == s.reports + NewReport(d, d', e)
  {
    if IsAccepted(s, e) {
      AcceptedMatches(s, e, d);
    } else if IsRejected(s, e) {
      RejectedMatches(s, e, d);
    } else {
      assert Evaluate(s, e) == Some(s);
    }
  }

  /** Accepting or rejecting: the device's answer was written and is recorded. */
  lemma ConcludeMatches(s: State, e: Id, d: Device)
    requires d.local.Written? && d.report.None? && Matches(s, e, d)
    ensures var t := Answer(s, e, d.local.accept, true);
            var d' := SwitchOver.Evaluate(d.(local := SwitchOver.Answered(d.local.accept)));
            t.Some? && Matches(t.value, e, d') && t.value.reports == s.reports + NewReport(d, d', e)
  {
    var u := LocalAnswer(s, e, d.local.accept);
    EvaluateMatches(u, e, d.(local := SwitchOver.Answered(d.local.accept)));
  }

  /** The other side's answer arrives, for the first time. */
  lemma HandleMatches(s: State, e: Id, d: Device, accept: bool)
    requires d.remote.None? && SwitchOver.Coherent(d) && Matches(s, e, d)
    ensures var t, d' := Response(s, e, accept), SwitchOver.HandleAnswer(d, accept);
            t.Some? && Matches(t.value, e, d') && t.value.reports == s.reports + NewReport(d, d', e)
  {
    if d.report.None? {
      var u := RemoteAnswer(s, e, accept);
      EvaluateMatches(u, e, d.(remote := Some(accept), reader := SwitchOver.Ready));
    } else {
      assert d.report == Some(SwitchOver.Rejected) || d.report == Some(SwitchOver.Failed);
    }
  }

  /** The endpoint is disconnected. */
  lemma DisconnectMatches(s: State, e: Id, d: Device)
    requires Matches(s, e, d)
    ensures Matches(FailResult(s, e), e, SwitchOver.Stop(d))
    ensures FailResult(s, e).reports == s.reports + NewReport(d, SwitchOver.Stop(d), e)
  {
    if e in s.pending {
      NothingToDestroy(s.(pending := s.pending - {e}), s.pending[e]);
    }
  }

  // ---------------------------------------------------------------- whole runs

  /** The books and the reports made so far tell the same as the device. */
  predicate InStep(s: State, e: Id, d: Device) {
    Matches(s, e, d) && s.reports == Told(d.report, e)
  }

  /** The event of the handler behind an action of the device, if there is one. */
  function EventOf(d: Device, a: SwitchOver.Action, e: Id): Option<Event> {
    match a
    case Conclude => if d.local.Written? then Some(OnAnswer(e, d.local.accept, true)) else None
    case Handle => if d.reader.Handling? then Some(OnResponse(e, d.reader.accept)) else None
    case Disconnect => Some(OnDisconnect(e))
    case _ => None
  }

  /** An answer that is about to be handled is the first one. */
  lemma FirstAnswer(s: SwitchOver.System)
    requires SwitchOver.Inv(s) && SwitchOver.Enabled(s, SwitchOver.Handle)
    ensures s.near.remote.None? && SwitchOver.Coherent(s.near)
  {
  }

  /** The other actions do not touch what the handler knows. */
  lemma OtherActions(s: SwitchOver.System, a: SwitchOver.Action, e: Id, st: State)
    requires SwitchOver.Enabled(s, a) && EventOf(s.near, a, e).None? && InStep(st, e, s.near)
    ensures InStep(st, e, SwitchOver.Act(s, a).near)
  {
    var d, d' := s.near, SwitchOver.Act(s, a).near;
    assert Recorded(d') == Recorded(d) && d'.remote == d.remote && d'.report == d.report && d'.encrypted == d.encrypted;
  }

  lemma ActionInStep(s: SwitchOver.System, a: SwitchOver.Action, st: State, e: Id)
    requires SwitchOver.Inv(s) && SwitchOver.Enabled(s, a) && InStep(st, e, s.near)
    ensures var ev, d' := EventOf(s.near, a, e), SwitchOver.Act(s, a).near;
            if ev.None? then InStep(st, e, d')
            else Enabled(st, ev.value) && Next(st, ev.value).Some? && InStep(Next(st, ev.value).value, e, d')
  {
    match a
    case Conclude => ConcludeMatches(st, e, s.near);
    case Handle =>
      FirstAnswer(s);
      HandleMatches(st, e, s.near, s.near.reader.accept);
    case Disconnect => DisconnectMatches(st, e, s.near);
    case _ => OtherActions(s, a, e, st);
  }

  /** `at[i]` is where run `r` of the handler stands at state `i` of the two devices; the run
      begins with a request of the device, or with an incoming one. */
  ghost predicate Simulates(r: Run, at: seq<nat>, run: seq<SwitchOver.System>, e: Id, incoming: bool) {
    && IsRun(r) && r.events != [] && (if incoming then r.events[0].OnIncoming? else r.events[0].OnRequest?) && |at| == |run| && |at| > 0 && at[|at| - 1] == |r.events|
    && (forall i :: 0 <= i < |at| ==> at[i] < |r.states| && InStep(r.states[at[i]], e, run[i].near))
    && (forall i, j :: 0 <= i <= j < |at| ==> at[i] <= at[j])
  }

  lemma AskingSimulates(e: Id)
    ensures Simulates(AfterHandOver(e), [2], [SwitchOver.Initial()], e, false)
  {
    AfterHandOverRuns(e);
  }

  lemma AskedSimulates(e: Id)
    ensures Simulates(AfterIncoming(e), [2], [SwitchOver.Initial()], e, true)
  {
    AfterIncomingRuns(e);
  }

  /** The handler makes one more step, or none. */
  lemma Lengthen(r: Run, at: seq<nat>, run: seq<SwitchOver.System>, t: SwitchOver.System, ev: Option<Event>, st: State, e: Id, incoming: bool)
    returns (r': Run, at': seq<nat>)
    requires Simulates(r, at, run, e, incoming) && InStep(st, e, t.near)
    requires if ev.None? then st == r.states[|r.events|] else IsStep(r.states[|r.events|], ev.value, st)
    ensures Simulates(r', at', run + [t], e, incoming)
  {
    if ev.Some? {
      ExtendRun(r, ev.value, st);
      r' := Run(r.states + [st], r.events + [ev.value]);
    } else {
      r' := r;
    }
    at' := at + [|r'.events|];
  }

  lemma StepSimulates(r: Run, at: seq<nat>, run: seq<SwitchOver.System>, s: SwitchOver.System, t: SwitchOver.System, e: Id, incoming: bool)
    returns (r': Run, at': seq<nat>)
    requires Simulates(r, at, run, e, incoming) && s == run[|run| - 1] && SwitchOver.Inv(s) && SwitchOver.Step(s, t)
    ensures Simulates(r', at', run + [t], e, incoming)
  {
    var st := r.states[|r.events|];
    if a :| SwitchOver.Enabled(s, a) && t == SwitchOver.Act(s, a) {
      ActionInStep(s, a, st, e);
      var ev := EventOf(s.near, a, e);
      r', at' := Lengthen(r, at, run, t, ev, if ev.None? then st else Next(st, ev.value).value, e, incoming);
    } else {
      r', at' := Lengthen(r, at, run, t, None, st, e, incoming);
    }
  }

  lemma NextSimulates(r: Run, at: seq<nat>, run: seq<SwitchOver.System>, e: Id, incoming: bool) returns (r': Run, at': seq<nat>)
    requires SwitchOver.IsRun(run) && |run| > 1 && Simulates(r, at, run[..|run| - 1], e, incoming)
    ensures Simulates(r', at', run, e, incoming)
  {
    var before, s, t := run[..|run| - 1], run[|run| - 2], run[|run| - 1];
    assert run == before + [t];
    SwitchOver.LastStep(run);
    r', at' := StepSimulates(r, at, before, s, t, e, incoming);
  }

  /** Every run of the two devices is, at one of them, a run of the handler, whichever side
      asked for the connection. */
  lemma {:induction false} DeviceIsHandler(run: seq<SwitchOver.System>, e: Id, incoming: bool) returns (r: Run, at: seq<nat>)
    requires SwitchOver.IsRun(run)
    ensures Simulates(r, at, run, e, incoming)
    decreases |run|
  {
    if |run| == 1 {
      r, at := if incoming then AfterIncoming(e) else AfterHandOver(e), [2];
      AskingSimulates(e);
      AskedSimulates(e);
      assert run == [SwitchOver.Initial()];
    } else {
      var before := run[..|run| - 1];
      SwitchOver.Shorten(run);
      r, at := DeviceIsHandler(before, e, incoming);
      r, at := NextSimulates(r, at, run, e, incoming);
    }
  }

  /** And at the other. */
  lemma OtherDeviceIsHandler(run: seq<SwitchOver.System>, e: Id, incoming: bool) returns (r: Run, at: seq<nat>)
    requires SwitchOver.IsRun(run)
    ensures Simulates(r, at, SwitchOver.SwapAll(run), e, incoming)
    ensures forall i :: 0 <= i < |run| ==> SwitchOver.SwapAll(run)[i].near == run[i].far
  {
    SwitchOver.MirrorRun(run);
    r, at := DeviceIsHandler(SwitchOver.SwapAll(run), e, incoming);
  }
}
