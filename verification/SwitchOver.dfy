/**
  The switch from plaintext to encrypted frames in the middle of a live
  connection, between two devices joined by a FIFO channel in each direction.

  Every write is split in two: a thread that holds the writer mutex first fixes
  the frame (encrypting it or not), and later puts it on the wire.  Answering is
  split in two as well: the answer goes out first, and only afterwards does the
  handler thread record it and evaluate the connection.  The reader thread, the
  keep-alive thread and the payload threads run in between.
*/
module SwitchOver {
  import opened Options

  datatype Kind = Answer(accept: bool) | KeepAlive | Payload | Disconnection

  /** A plaintext frame, which is early if its writer had not decided the connection when
      it wrote it; and an encrypted one, with the number its writer's context gave it. */
  datatype Frame = Plain(kind: Kind, early: bool) | Cipher(kind: Kind, number: nat)

  /** A frame taken off the wire: whether the reader was encrypted then, and whether the
      frame was erased instead of being handed to its processor. */
  datatype Receipt = Receipt(frame: Frame, encrypted: bool, erased: bool)

  /** How far this device's own answer has come. */
  datatype Local = Open | Writing(accept: bool) | Written(accept: bool) | Answered(accept: bool)

  /** What the reader thread is doing: waiting for a frame, waiting for the handler
      thread to process an answer, waiting for encryption so that it can decrypt a
      frame it could not parse, waiting on a latch nobody will release, or over. */
  datatype Reader = Ready | Handling(accept: bool) | Retrying(frame: Frame) | Blocked | Ended

  /** `Failed` is the report of a connection that was lost before it was decided. */
  datatype Report = Accepted | Rejected | Failed

  datatype Device = Device(
    local: Local,
    remote: Option<bool>,
    encrypted: bool,
    report: Option<Report>,
    stopped: bool,
    reader: Reader,
    tryDecrypt: bool,
    writing: Option<Frame>,
    encoded: nat,
    decoded: nat,
    sent: seq<Frame>,
    received: seq<Receipt>,
    delivered: seq<Kind>)

  /** Two devices; `out` carries frames from `near` to `far`, `back` the other way. */
  datatype System = System(near: Device, far: Device, out: seq<Frame>, back: seq<Frame>)

  function Fresh(): Device {
    Device(Open, None, false, None, false, Ready, true, None, 0, 0, [], [], [])
  }

  function Initial(): System {
    System(Fresh(), Fresh(), [], [])
  }

  function Swap(s: System): System {
    System(s.far, s.near, s.back, s.out)
  }

  function Frames(rs: seq<Receipt>): seq<Frame> {
    seq(|rs|, i requires 0 <= i < |rs| => rs[i].frame)
  }

  /** The kinds of the frames that were not erased. */
  function Passed(rs: seq<Receipt>): seq<Kind> {
    if rs == [] then []
    else
      var last := rs[|rs| - 1];
      Passed(rs[..|rs| - 1]) + if last.erased then [] else [last.frame.kind]
  }

  // ---------------------------------------------------------------- steps

  /** The handler thread may start a task only when it is not inside an answer. */
  predicate HandlerIdle(d: Device) {
    d.local.Open? || d.local.Answered?
  }

  /** EvaluateConnectionResult, on a connection that is still pending. */
  function Evaluate(d: Device): Device {
    if d.report.Some? then d
    else if d.local == Answered(true) && d.remote == Some(true) then
      d.(encrypted := true, report := Some(Accepted))
    else if d.local == Answered(false) || d.remote == Some(false) then
      d.(report := Some(Rejected))
    else d
  }

  /** Fix the bytes of a frame under the writer and crypto mutexes. */
  function Encode(d: Device, k: Kind): Device
    requires d.writing.None?
  {
    if d.encrypted then d.(writing := Some(Cipher(k, d.encoded)), encoded := d.encoded + 1)
    else d.(writing := Some(Plain(k, d.report.None?)))
  }

  /** Hand a parsed frame to its processor; an answer makes the reader wait. */
  function Deliver(d: Device, f: Frame): Device {
    d.(received := d.received + [Receipt(f, d.encrypted, false)],
       delivered := d.delivered + [f.kind],
       reader := if f.kind.Answer? then Handling(f.kind.accept) else Ready)
  }

  /** An erased frame ends the reader if Read itself failed; if only the frame could not be
      parsed, the reader goes on. */
  function Erase(d: Device, f: Frame, reader: Reader): Device {
    d.(received := d.received + [Receipt(f, d.encrypted, true)], reader := reader)
  }

  /** BaseEndpointChannel::Read followed by EndpointManager::HandleData. */
  function Receive(d: Device, f: Frame): Device {
    match f
    case Plain(k, _) =>
      if !d.encrypted || k.KeepAlive? then Deliver(d, f) else Erase(d, f, Ended)
    case Cipher(_, _) =>
      if d.encrypted then Decrypt(d, f, Ended)
      else if d.tryDecrypt then d.(reader := Retrying(f), tryDecrypt := false)
      else Erase(d, f, Ready)
  }

  /** The decoder accepts exactly the next number of its peer. */
  function Decrypt(d: Device, f: Frame, failed: Reader): Device
    requires f.Cipher?
  {
    if f.number == d.decoded then Deliver(d, f).(decoded := d.decoded + 1) else Erase(d, f, failed)
  }

  /** OnIncomingFrame: a first answer is recorded and evaluated, and the latch is
      released; a repeated one leaves the reader waiting. */
  function HandleAnswer(d: Device, accept: bool): Device {
    if d.remote.Some? then d.(reader := Blocked)
    else Evaluate(d.(remote := Some(accept), reader := Ready))
  }

  /** OnEndpointDisconnect: the channel is gone, and a connection not decided by then is
      reported as failed. */
  function Stop(d: Device): Device {
    d.(stopped := true, report := if d.report.None? then Some(Failed) else d.report)
  }

  /** Frames other than answers: keep-alives and disconnections at any time, payloads once
      the connection is reported accepted. */
  predicate MaySend(d: Device, k: Kind) {
    match k
    case Answer(_) => false
    case KeepAlive => true
    case Payload => d.report == Some(Accepted)
    case Disconnection => true
  }

  datatype Action =
    | BeginAnswer(accept: bool)
    | BeginFrame(kind: Kind)
    | Put
    | Conclude
    | Read
    | Retry
    | Handle
    | Disconnect

  predicate Enabled(s: System, a: Action) {
    var d := s.near;
    match a
    case BeginAnswer(_) => d.local.Open? && d.report.None? && d.writing.None?
    case BeginFrame(k) => d.writing.None? && !d.stopped && MaySend(d, k)
    case Put => d.writing.Some?
    case Conclude => d.local.Written?
    case Read => d.reader.Ready? && !d.stopped && s.back != []
    case Retry => d.reader.Retrying? && d.encrypted && d.reader.frame.Cipher?
    case Handle => d.reader.Handling? && HandlerIdle(d)
    case Disconnect => HandlerIdle(d)
  }

  /** One step of the near device. */
  function Act(s: System, a: Action): System
    requires Enabled(s, a)
  {
    var d := s.near;
    match a
    case BeginAnswer(accept) =>
      s.(near := Encode(d.(local := Local.Writing(accept)), Answer(accept)))
    case BeginFrame(k) =>
      s.(near := Encode(d, k))
    case Put =>
      var f := d.writing.value;
      var local := if f.kind.Answer? && d.local.Writing? then Written(d.local.accept) else d.local;
      s.(near := d.(writing := None, sent := d.sent + [f], local := local), out := s.out + [f])
    case Conclude =>
      s.(near := Evaluate(d.(local := Answered(d.local.accept))))
    case Read =>
      s.(near := Receive(d, s.back[0]), back := s.back[1..])
    case Retry =>
      s.(near := Decrypt(d, d.reader.frame, Ready))
    case Handle =>
      s.(near := HandleAnswer(d, d.reader.accept))
    case Disconnect =>
      s.(near := Stop(d))
  }

  /** Either device takes a step. */
  ghost predicate Step(s: System, t: System) {
    || (exists a :: Enabled(s, a) && t == Act(s, a))
    || (exists a :: Enabled(Swap(s), a) && t == Swap(Act(Swap(s), a)))
  }

  ghost predicate IsRun(run: seq<System>) {
    && |run| > 0
    && run[0] == Initial()
    && forall i :: 0 <= i < |run| - 1 ==> StepAt(run, i)
  }

  ghost predicate StepAt(run: seq<System>, i: nat)
    requires i + 1 < |run|
  {
    Step(run[i], run[i + 1])
  }

  // ---------------------------------------------------------------- invariant

  /** What the two answers known to a device decide. */
  function Verdict(d: Device): Option<Report> {
    if d.local == Answered(true) && d.remote == Some(true) then Some(Accepted)
    else if d.local == Answered(false) || d.remote == Some(false) then Some(Rejected)
    else None
  }

  predicate Coherent(d: Device) {
    && (d.report == Verdict(d) || d.report == Some(Failed))
    && (d.report == Some(Failed) ==> d.stopped)
    && (d.stopped ==> d.report.Some?)
    && d.encrypted == (d.report == Some(Accepted))
    && (!d.encrypted ==> d.encoded == 0)
    && (d.local.Writing? <==> d.writing.Some? && d.writing.value.kind.Answer?)
    && (d.local.Writing? ==> d.writing == Some(Plain(Answer(d.local.accept), true)))
    && (d.local.Writing? || d.local.Written? ==> d.report.None?)
    && (d.writing.Some? ==> Honest(d, d.writing.value))
  }

  /** A frame its writer could have produced by now. */
  predicate Honest(d: Device, f: Frame) {
    match f
    case Plain(k, early) =>
      && !k.Payload?
      && (!early ==> d.report == Some(Rejected))
      && (k.Answer? && !d.local.Writing? ==> Sent(d, k.accept))
    case Cipher(k, _) => d.encrypted && !k.Answer?
  }

  /** The answer `accept` is on the wire or beyond. */
  predicate Sent(d: Device, accept: bool) {
    d.local == Written(accept) || d.local == Answered(accept)
  }

  /** Everything written and not yet decoded: the wire, then the frame being written. */
  function Stream(w: Device, wire: seq<Frame>): seq<Frame> {
    wire + (if w.writing.Some? then [w.writing.value] else [])
  }

  /** Plain frames first, then ciphertexts numbered `n`, `n + 1`, ..., `m - 1`. */
  predicate Numbered(fs: seq<Frame>, n: int, m: int) {
    && 0 <= m - n <= |fs|
    && (forall i :: 0 <= i < |fs| ==> (fs[i].Cipher? <==> |fs| - (m - n) <= i))
    && (forall i :: 0 <= i < |fs| && fs[i].Cipher? ==> fs[i].number == m - (|fs| - i))
  }

  function Held(r: Device): seq<Frame> {
    if r.reader.Retrying? then [r.reader.frame] else []
  }

  predicate NoAnswer(wire: seq<Frame>) {
    forall i :: 0 <= i < |wire| ==> !wire[i].kind.Answer?
  }

  /** The answer of `w` is in exactly one place on its way to `r`. */
  ghost predicate Route(w: Device, wire: seq<Frame>, r: Device) {
    match w.local
    case Open => NoAnswer(wire) && r.remote.None? && !r.reader.Handling?
    case Writing(_) => NoAnswer(wire) && r.remote.None? && !r.reader.Handling?
    case Written(a) => Placed(a, wire, r)
    case Answered(a) => Placed(a, wire, r)
  }

  ghost predicate Placed(a: bool, wire: seq<Frame>, r: Device) {
    || (r.remote == Some(a) && !r.reader.Handling? && NoAnswer(wire))
    || (r.remote.None? && r.reader == Handling(a) && NoAnswer(wire))
    || (r.remote.None? && !r.reader.Handling? && OneAnswer(a, wire))
  }

  ghost predicate OneAnswer(a: bool, wire: seq<Frame>) {
    exists k :: 0 <= k < |wire| && wire[k] == Plain(Answer(a), true) && NoAnswer(wire[..k]) && NoAnswer(wire[k + 1..])
  }

  /** A reader that met a ciphertext too early is a reader whose handler thread has
      its accept on the wire and will enable encryption next. */
  predicate EarlyReader(r: Device) {
    && (r.reader.Retrying? ==>
          && r.reader.frame.Cipher?
          && r.reader.frame.number == r.decoded
          && !r.reader.frame.kind.Answer?
          && r.remote == Some(true)
          && (r.encrypted || r.local == Written(true)))
    && (!r.tryDecrypt ==> r.encrypted || r.reader.Retrying?)
    && !r.reader.Blocked?
    && (r.reader.Ended? ==> r.encrypted)
    && (forall i :: 0 <= i < |r.received| && r.received[i].erased ==> i == |r.received| - 1 && r.reader.Ended?)
  }

  /** A frame is erased exactly if it is a disconnection in plaintext that its writer wrote
      before it had decided the connection, and that reaches an encrypted reader. */
  predicate Right(r: Receipt) {
    && (r.erased <==> r.encrypted && r.frame.Plain? && r.frame.kind.Disconnection? && r.frame.early)
    && (r.encrypted && r.frame.Plain? ==> r.frame.kind.KeepAlive? || (r.frame.kind.Disconnection? && r.frame.early))
  }

  /** One direction of the connection, from writer `w` to reader `r`. */
  ghost predicate Direction(w: Device, wire: seq<Frame>, r: Device) {
    && Route(w, wire, r)
    && (forall i :: 0 <= i < |wire| ==> Honest(w, wire[i]))
    && Numbered(Stream(w, wire), r.decoded + |Held(r)|, w.encoded)
    && EarlyReader(r)
    && (forall i :: 0 <= i < |r.received| ==> Right(r.received[i]))
    && r.delivered == Passed(r.received)
    && w.sent == Frames(r.received) + Held(r) + wire
    && (r.decoded + |Held(r)| > 0 ==> w.encrypted)
    && (r.remote.Some? ==> Answer(r.remote.value) in r.delivered)
    && (r.reader.Handling? ==> Answer(r.reader.accept) in r.delivered)
  }

  ghost predicate Inv(s: System) {
    && Coherent(s.near) && Coherent(s.far)
    && Direction(s.near, s.out, s.far)
    && Direction(s.far, s.back, s.near)
  }

  lemma FreshDirection()
    ensures Coherent(Fresh()) && Direction(Fresh(), [], Fresh())
  {
    assert Frames([]) + [] + [] == [];
  }

  lemma InitialInv()
    ensures Inv(Initial())
  {
    FreshDirection();
  }

  // ---------------------------------------------------------------- preservation

  lemma EncodeKeeps(w: Device, wire: seq<Frame>, r: Device, k: Kind)
    requires Coherent(w) && Direction(w, wire, r) && w.writing.None? && !w.stopped && MaySend(w, k)
    ensures Coherent(Encode(w, k)) && Direction(Encode(w, k), wire, r)
  {
    var fs, gs := Stream(w, wire), Stream(Encode(w, k), wire);
    assert gs == fs + [Encode(w, k).writing.value];
  }

  lemma AnswerKeeps(w: Device, wire: seq<Frame>, r: Device, accept: bool)
    requires Coherent(w) && Direction(w, wire, r)
    requires w.local.Open? && w.report.None? && w.writing.None?
    ensures var w' := Encode(w.(local := Local.Writing(accept)), Answer(accept));
            Coherent(w') && Direction(w', wire, r)
  {
    var w' := Encode(w.(local := Local.Writing(accept)), Answer(accept));
    assert Stream(w', wire) == Stream(w, wire) + [w'.writing.value];
  }

  lemma AnswerLast(a: bool, wire: seq<Frame>)
    requires NoAnswer(wire)
    ensures OneAnswer(a, wire + [Plain(Answer(a), true)])
  {
    var t := wire + [Plain(Answer(a), true)];
    assert t[|wire|] == Plain(Answer(a), true) && t[..|wire|] == wire && t[|wire| + 1..] == [];
  }

  lemma AnswerStays(a: bool, wire: seq<Frame>, f: Frame)
    requires OneAnswer(a, wire) && !f.kind.Answer?
    ensures OneAnswer(a, wire + [f])
  {
    var k :| 0 <= k < |wire| && wire[k] == Plain(Answer(a), true) && NoAnswer(wire[..k]) && NoAnswer(wire[k + 1..]);
    var t := wire + [f];
    assert t[k] == wire[k] && t[..k] == wire[..k] && t[k + 1..] == wire[k + 1..] + [f];
  }

  lemma AnswerPops(a: bool, wire: seq<Frame>)
    requires OneAnswer(a, wire)
    ensures if wire[0].kind.Answer? then wire[0] == Plain(Answer(a), true) && NoAnswer(wire[1..])
            else OneAnswer(a, wire[1..])
  {
    var k :| 0 <= k < |wire| && wire[k] == Plain(Answer(a), true) && NoAnswer(wire[..k]) && NoAnswer(wire[k + 1..]);
    if k == 0 {
    } else {
      assert wire[..k][0] == wire[0];
      var t := wire[1..];
      assert t[k - 1] == wire[k] && t[..k - 1] == wire[..k][1..] && t[k..] == wire[k + 1..];
    }
  }

  lemma PutKeepsRoute(s: System)
    requires Inv(s) && Enabled(s, Put)
    ensures Route(Act(s, Put).near, Act(s, Put).out, s.far)
  {
    var w, f := s.near, s.near.writing.value;
    if w.local.Writing? {
      AnswerLast(w.local.accept, s.out);
    } else if !w.local.Open? && OneAnswer(w.local.accept, s.out) {
      AnswerStays(w.local.accept, s.out, f);
    }
  }

  lemma PutKeepsOut(s: System)
    requires Inv(s) && Enabled(s, Put)
    ensures var t := Act(s, Put); Coherent(t.near) && Direction(t.near, t.out, t.far)
  {
    var w, t := s.near, Act(s, Put);
    PutKeepsRoute(s);
    assert Stream(t.near, t.out) == Stream(w, s.out);
    assert forall i :: 0 <= i < |s.out| ==> Honest(t.near, s.out[i]);
  }

  lemma PutKeeps(s: System)
    requires Inv(s) && Enabled(s, Put)
    ensures Inv(Act(s, Put))
  {
    PutKeepsOut(s);
    ReaderStays(s.far, s.back, s.near, Act(s, Put).near);
  }

  /** What a reader may change without disturbing what it reads. */
  lemma ReaderStays(w: Device, wire: seq<Frame>, r: Device, r': Device)
    requires Direction(w, wire, r)
    requires r'.reader == r.reader && r'.remote == r.remote && r'.decoded == r.decoded && r'.tryDecrypt == r.tryDecrypt
    requires r'.received == r.received && r'.delivered == r.delivered
    requires r.encrypted ==> r'.encrypted
    requires r'.local == r.local || r'.encrypted || r.local != Written(true) || r.remote != Some(true)
    ensures Direction(w, wire, r')
  {
  }

  /** What a writer may change without disturbing the frames already under way. */
  lemma WriterMoves(w: Device, w': Device, wire: seq<Frame>, r: Device)
    requires Direction(w, wire, r)
    requires w'.writing == w.writing && w'.encoded == w.encoded && w'.sent == w.sent
    requires w.encrypted ==> w'.encrypted
    requires w.report.Some? ==> w'.report == w.report
    requires w'.local == w.local || (w.local.Written? && w'.local == Answered(w.local.accept))
    ensures Direction(w', wire, r)
  {
    assert Stream(w', wire) == Stream(w, wire);
    forall i | 0 <= i < |wire| ensures Honest(w', wire[i]) {
      assert Honest(w, wire[i]);
    }
  }

  lemma ConcludeKeeps(s: System)
    requires Inv(s) && Enabled(s, Conclude)
    ensures Inv(Act(s, Conclude))
  {
    var t := Act(s, Conclude);
    WriterMoves(s.near, t.near, s.out, s.far);
    ReaderStays(s.far, s.back, s.near, t.near);
  }

  lemma HandleKeeps(s: System)
    requires Inv(s) && Enabled(s, Handle)
    ensures Inv(Act(s, Handle))
  {
    var t := Act(s, Handle);
    WriterMoves(s.near, t.near, s.out, s.far);
  }

  /** A ciphertext at the head of the wire follows the peer's answer, so it finds
      this device encrypted or between its own accept and its evaluation. */
  lemma CipherAtHead(s: System)
    requires Inv(s) && s.near.reader.Ready? && !s.near.stopped && s.back != [] && s.back[0].Cipher?
    ensures s.back[0].number == s.near.decoded && !s.back[0].kind.Answer?
    ensures s.near.remote == Some(true) && s.far.encrypted
    ensures s.near.encrypted || (s.near.local == Written(true) && s.near.tryDecrypt)
  {
    var w, r, fs := s.far, s.near, Stream(s.far, s.back);
    assert fs[0] == s.back[0];
    assert forall i :: 0 <= i < |s.back| ==> fs[i] == s.back[i];
    assert NoAnswer(s.back) by {
      forall i | 0 <= i < |s.back| ensures !s.back[i].kind.Answer? {
        assert fs[i].Cipher?;
        assert Honest(w, s.back[i]);
      }
    }
    assert Honest(w, s.back[0]);
    assert w.local == Answered(true) && w.remote == Some(true);
    assert !OneAnswer(true, s.back);
  }

  /** A plaintext frame that reaches an encrypted reader is a keep-alive, or a
      disconnection written before the writer had decided. */
  lemma PlainAtHead(s: System)
    requires Inv(s) && s.near.encrypted && s.near.reader.Ready? && s.back != [] && s.back[0].Plain?
    ensures s.back[0].kind.KeepAlive? || (s.back[0].kind.Disconnection? && s.back[0].early)
  {
    var w, r := s.far, s.near;
    assert Honest(w, s.back[0]);
    assert !OneAnswer(true, s.back);
    assert w.local != Answered(false) && w.remote != Some(false);
  }

  /** What reading does to the reader's records. */
  lemma ReadKeepsRecords(s: System)
    requires Inv(s) && Enabled(s, Read)
    ensures var t := Act(s, Read).near;
            && (forall i :: 0 <= i < |t.received| ==> Right(t.received[i]))
            && t.delivered == Passed(t.received)
            && Frames(t.received) + Held(t) == Frames(s.near.received) + [s.back[0]]
  {
    var t := Act(s, Read).near;
    if s.back[0].Cipher? {
      CipherAtHead(s);
    } else if s.near.encrypted {
      PlainAtHead(s);
    }
    if !t.reader.Retrying? {
      assert t.received[..|s.near.received|] == s.near.received;
    }
  }

  lemma ReadKeepsNumbers(s: System)
    requires Inv(s) && Enabled(s, Read)
    ensures var t := Act(s, Read); Numbered(Stream(t.far, t.back), t.near.decoded + |Held(t.near)|, t.far.encoded)
    ensures var t := Act(s, Read); t.near.decoded + |Held(t.near)| > 0 ==> t.far.encrypted
    ensures EarlyReader(Act(s, Read).near)
  {
    var t := Act(s, Read);
    var fs := Stream(s.far, s.back);
    assert fs[0] == s.back[0] && Stream(t.far, t.back) == fs[1..];
    if s.back[0].Cipher? {
      CipherAtHead(s);
    } else if s.near.encrypted {
      PlainAtHead(s);
    }
  }

  lemma ReadKeepsRoute(s: System)
    requires Inv(s) && Enabled(s, Read)
    ensures Route(Act(s, Read).far, Act(s, Read).back, Act(s, Read).near)
  {
    var t, w := Act(s, Read), s.far;
    if s.back[0].Cipher? {
      CipherAtHead(s);
    } else if s.near.encrypted {
      PlainAtHead(s);
    }
    if (w.local.Written? || w.local.Answered?) && OneAnswer(w.local.accept, s.back) {
      AnswerPops(w.local.accept, s.back);
    }
  }

  lemma ReadKeepsSent(s: System)
    requires Inv(s) && Enabled(s, Read)
    ensures var t := Act(s, Read); t.far.sent == Frames(t.near.received) + Held(t.near) + t.back
  {
    var t := Act(s, Read);
    ReadKeepsRecords(s);
    calc {
      t.far.sent;
      Frames(s.near.received) + Held(s.near) + s.back;
      Frames(s.near.received) + [s.back[0]] + t.back;
      Frames(t.near.received) + Held(t.near) + t.back;
    }
  }

  lemma ReadKeepsAnswers(s: System)
    requires Inv(s) && Enabled(s, Read)
    ensures var r := Act(s, Read).near;
            && (r.remote.Some? ==> Answer(r.remote.value) in r.delivered)
            && (r.reader.Handling? ==> Answer(r.reader.accept) in r.delivered)
  {
  }

  lemma ReadKeepsDirection(s: System)
    requires Inv(s) && Enabled(s, Read)
    ensures var t := Act(s, Read); Direction(t.far, t.back, t.near)
  {
    var t := Act(s, Read);
    ReadKeepsNumbers(s);
    ReadKeepsRoute(s);
    ReadKeepsRecords(s);
    ReadKeepsSent(s);
    ReadKeepsAnswers(s);
    assert forall i :: 0 <= i < |t.back| ==> Honest(t.far, t.back[i]);
  }

  lemma ReadKeepsCoherent(s: System)
    requires Coherent(s.near) && Enabled(s, Read)
    ensures Coherent(Act(s, Read).near)
  {
  }

  lemma ReadKeepsOut(s: System)
    requires Direction(s.near, s.out, s.far) && Enabled(s, Read)
    ensures Direction(Act(s, Read).near, s.out, s.far)
  {
    WriterMoves(s.near, Act(s, Read).near, s.out, s.far);
  }

  lemma ReadKeeps(s: System)
    requires Inv(s) && Enabled(s, Read)
    ensures Inv(Act(s, Read))
  {
    var t := Act(s, Read);
    ReadKeepsCoherent(s);
    ReadKeepsOut(s);
    ReadKeepsDirection(s);
    assert t.far == s.far && t.out == s.out;
  }

  lemma RetryKeeps(s: System)
    requires Inv(s) && Enabled(s, Retry)
    ensures Inv(Act(s, Retry))
  {
    var t := Act(s, Retry);
    WriterMoves(s.near, t.near, s.out, s.far);
    assert t.near.received[..|s.near.received|] == s.near.received;
    assert Frames(t.near.received) == Frames(s.near.received) + Held(s.near);
  }

  lemma DisconnectKeeps(s: System)
    requires Inv(s) && Enabled(s, Disconnect)
    ensures Inv(Act(s, Disconnect))
  {
    WriterMoves(s.near, Act(s, Disconnect).near, s.out, s.far);
  }

  lemma BeginKeeps(s: System, a: Action)
    requires Inv(s) && Enabled(s, a) && (a.BeginAnswer? || a.BeginFrame?)
    ensures Inv(Act(s, a))
  {
    ReaderStays(s.far, s.back, s.near, Act(s, a).near);
    match a
    case BeginAnswer(accept) => AnswerKeeps(s.near, s.out, s.far, accept);
    case BeginFrame(k) => EncodeKeeps(s.near, s.out, s.far, k);
  }

  lemma ActKeeps(s: System, a: Action)
    requires Inv(s) && Enabled(s, a)
    ensures Inv(Act(s, a))
  {
    match a
    case BeginAnswer(_) => BeginKeeps(s, a);
    case BeginFrame(_) => BeginKeeps(s, a);
    case Put => PutKeeps(s);
    case Conclude => ConcludeKeeps(s);
    case Read => ReadKeeps(s);
    case Retry => RetryKeeps(s);
    case Handle => HandleKeeps(s);
    case Disconnect => DisconnectKeeps(s);
  }

  lemma StepKeeps(s: System, t: System)
    requires Inv(s) && Step(s, t)
    ensures Inv(t)
  {
    if a :| Enabled(s, a) && t == Act(s, a) {
      ActKeeps(s, a);
    } else {
      var a :| Enabled(Swap(s), a) && t == Swap(Act(Swap(s), a));
      ActKeeps(Swap(s), a);
    }
  }

  lemma {:induction false} Reachable(run: seq<System>, i: nat)
    requires IsRun(run) && i < |run|
    ensures Inv(run[i])
  {
    if i == 0 {
      InitialInv();
    } else {
      Reachable(run, i - 1);
      assert StepAt(run, i - 1);
      StepKeeps(run[i - 1], run[i]);
    }
  }

  /** Runs are closed under taking away the last state, and under exchanging the devices. */
  lemma Shorten(run: seq<System>)
    requires IsRun(run) && |run| > 1
    ensures IsRun(run[..|run| - 1])
  {
    var less := run[..|run| - 1];
    forall i | 0 <= i < |less| - 1 ensures StepAt(less, i) {
      assert StepAt(run, i);
    }
  }

  lemma LastStep(run: seq<System>)
    requires IsRun(run) && |run| > 1
    ensures Inv(run[|run| - 2]) && Step(run[|run| - 2], run[|run| - 1])
  {
    Reachable(run, |run| - 2);
    assert StepAt(run, |run| - 2);
  }

  function SwapAll(run: seq<System>): seq<System> {
    seq(|run|, i requires 0 <= i < |run| => Swap(run[i]))
  }

  lemma MirrorStep(s: System, t: System)
    requires Step(s, t)
    ensures Step(Swap(s), Swap(t))
  {
    if a :| Enabled(s, a) && t == Act(s, a) {
      assert Enabled(Swap(Swap(s)), a) && Swap(t) == Swap(Act(Swap(Swap(s)), a));
    }
  }

  lemma MirrorAt(run: seq<System>, i: nat)
    requires IsRun(run) && i + 1 < |run|
    ensures StepAt(SwapAll(run), i)
  {
    assert StepAt(run, i);
    MirrorStep(run[i], run[i + 1]);
  }

  lemma MirrorRun(run: seq<System>)
    requires IsRun(run)
    ensures IsRun(SwapAll(run))
  {
    forall i | 0 <= i < |run| - 1 ensures StepAt(SwapAll(run), i) {
      MirrorAt(run, i);
    }
  }

  // ---------------------------------------------------------------- theorems

  /** Whatever the near device reads next is treated as it should: an encrypted reader
      meets plaintext only as a keep-alive, or as a disconnection its writer wrote before
      it had decided, and decodes every ciphertext; a plaintext reader meets a ciphertext
      only between its own accept and its enabling of encryption, with its one retry
      still unspent. */
  predicate SafeRead(s: System) {
    var d := s.near;
    d.reader.Ready? && !d.stopped && s.back != [] ==>
      && (d.encrypted && s.back[0].Plain? ==> s.back[0].kind.KeepAlive? || (s.back[0].kind.Disconnection? && s.back[0].early))
      && (d.encrypted && s.back[0].Cipher? ==> s.back[0].number == d.decoded)
      && (!d.encrypted && s.back[0].Cipher? ==> d.local == Written(true) && d.remote == Some(true) && d.tryDecrypt)
  }

  lemma InvIsSafe(s: System)
    requires Inv(s)
    ensures SafeRead(s)
  {
    if s.near.reader.Ready? && !s.near.stopped && s.back != [] {
      if s.back[0].Cipher? {
        CipherAtHead(s);
      } else if s.near.encrypted {
        PlainAtHead(s);
      }
    }
  }

  /** In every run, both devices always read safely. */
  lemma SwitchOverIsSafe(run: seq<System>, i: nat)
    requires IsRun(run) && i < |run|
    ensures SafeRead(run[i]) && SafeRead(Swap(run[i]))
  {
    Reachable(run, i);
    InvIsSafe(run[i]);
    InvIsSafe(Swap(run[i]));
  }

  /** In every run no frame is lost, repeated or reordered, in either direction: what one
      device put on the wire is what the other took off it, followed by the frame it is
      retrying and the frames still in flight. */
  lemma NothingIsLost(run: seq<System>, i: nat)
    requires IsRun(run) && i < |run|
    ensures run[i].far.sent == Frames(run[i].near.received) + Held(run[i].near) + run[i].back
    ensures run[i].near.sent == Frames(run[i].far.received) + Held(run[i].far) + run[i].out
    ensures run[i].near.delivered == Passed(run[i].near.received) && run[i].far.delivered == Passed(run[i].far.received)
    ensures !run[i].near.reader.Blocked? && !run[i].far.reader.Blocked?
  {
    Reachable(run, i);
  }

  /** In every run a frame is erased exactly if it is a plaintext disconnection, written
      before its writer had decided, that reaches an encrypted reader. No answer, no
      keep-alive and no payload ever is. */
  lemma ErasedExactly(run: seq<System>, i: nat, r: Receipt)
    requires IsRun(run) && i < |run| && (r in run[i].near.received || r in run[i].far.received)
    ensures r.erased <==> r.encrypted && r.frame.Plain? && r.frame.kind.Disconnection? && r.frame.early
    ensures r.encrypted && r.frame.Plain? && r.frame.kind.Disconnection? ==> r.frame.early
    ensures r.frame.kind.Answer? || r.frame.kind.KeepAlive? || r.frame.kind.Payload? ==> !r.erased
  {
    Reachable(run, i);
    assert Right(r);
  }

  /** An erased frame is the last one its reader takes: the reader is over. */
  lemma ErasedIsLast(run: seq<System>, i: nat, k: nat)
    requires IsRun(run) && i < |run| && k < |run[i].near.received| && run[i].near.received[k].erased
    ensures k == |run[i].near.received| - 1 && run[i].near.reader.Ended? && run[i].near.report == Some(Accepted)
    ensures !Enabled(run[i], Read)
  {
    Reachable(run, i);
  }

  /** Nothing is left to do at the near device: nothing to put, to conclude, to read, to retry
      or to handle. */
  predicate Done(s: System) {
    !Enabled(s, Put) && !Enabled(s, Conclude) && !Enabled(s, Read) && !Enabled(s, Retry) && !Enabled(s, Handle)
  }

  /** In every run, once both sides have begun to answer and nobody was disconnected: as long
      as one of them has not reported, there is something left to do; and when nothing is,
      both have reported the same, and accepted exactly if both accepted. */
  lemma Progress(run: seq<System>, i: nat)
    requires IsRun(run) && i < |run|
    requires !run[i].near.local.Open? && !run[i].far.local.Open? && !run[i].near.stopped && !run[i].far.stopped
    requires Done(run[i]) && Done(Swap(run[i]))
    ensures var near, far := run[i].near, run[i].far;
            && near.report.Some? && far.report == near.report
            && (near.report == Some(Accepted) <==> near.local.accept && far.local.accept)
  {
    Reachable(run, i);
    Settled(run[i]);
    Settled(Swap(run[i]));
  }

  /** The near device has recorded both answers then. */
  lemma Settled(s: System)
    requires Inv(s) && !s.near.local.Open? && !s.far.local.Open? && !s.near.stopped && !s.far.stopped
    requires Done(s) && Done(Swap(s))
    ensures s.near.local.Answered? && s.far.local.Answered? && s.near.remote == Some(s.far.local.accept)
  {
    assert s.near.reader.Ready? ==> !OneAnswer(s.far.local.accept, s.back);
  }

  lemma ActKeepsReports(s: System, a: Action)
    requires Enabled(s, a)
    ensures s.near.report.Some? ==> Act(s, a).near.report == s.near.report
    ensures s.far.report.Some? ==> Act(s, a).far.report == s.far.report
  {
  }

  lemma StepKeepsReports(s: System, t: System)
    requires Step(s, t)
    ensures s.near.report.Some? ==> t.near.report == s.near.report
    ensures s.far.report.Some? ==> t.far.report == s.far.report
  {
    if a :| Enabled(s, a) && t == Act(s, a) {
      ActKeepsReports(s, a);
    } else {
      var a :| Enabled(Swap(s), a) && t == Swap(Act(Swap(s), a));
      ActKeepsReports(Swap(s), a);
    }
  }

  lemma ReportsStickOnce(run: seq<System>, i: nat)
    requires IsRun(run) && i + 1 < |run|
    ensures run[i].near.report.Some? ==> run[i + 1].near.report == run[i].near.report
    ensures run[i].far.report.Some? ==> run[i + 1].far.report == run[i].far.report
  {
    assert StepAt(run, i);
    StepKeepsReports(run[i], run[i + 1]);
  }

  /** Once a device has reported, its report stays. */
  lemma {:induction false} ReportsStick(run: seq<System>, i: nat, j: nat)
    requires IsRun(run) && i <= j < |run|
    ensures run[i].near.report.Some? ==> run[j].near.report == run[i].near.report
    ensures run[i].far.report.Some? ==> run[j].far.report == run[i].far.report
  {
    if i == j {
    } else {
      ReportsStick(run, i, j - 1);
      ReportsStickOnce(run, j - 1);
    }
  }

  /** If one side reports accepted at any moment, the other reports rejected at no
      moment; and accepted is reported only with both accepts given and the
      channel encrypted. */
  lemma Agreement(run: seq<System>, i: nat, j: nat)
    requires IsRun(run) && i < |run| && j < |run|
    requires run[i].near.report == Some(Accepted)
    ensures run[j].far.report != Some(Rejected)
    ensures run[i].near.encrypted && run[i].near.local == Answered(true)
    ensures Sent(run[i].far, true) && Answer(true) in run[i].near.delivered
  {
    var m := if i < j then j else i;
    ReportsStick(run, i, m);
    ReportsStick(run, j, m);
    Reachable(run, i);
    Reachable(run, m);
  }

  /** The same with the roles of the devices exchanged. */
  lemma AgreementOfFar(run: seq<System>, i: nat, j: nat)
    requires IsRun(run) && i < |run| && j < |run|
    requires run[i].far.report == Some(Accepted)
    ensures run[j].near.report != Some(Rejected)
    ensures run[i].far.encrypted && run[i].far.local == Answered(true)
    ensures Sent(run[i].near, true) && Answer(true) in run[i].far.delivered
  {
    var m := if i < j then j else i;
    ReportsStick(run, i, m);
    ReportsStick(run, j, m);
    Reachable(run, i);
    Reachable(run, m);
  }

  // ---------------------------------------------------------------- a run with an early ciphertext

  lemma Extend(run: seq<System>, t: System)
    requires IsRun(run) && Step(run[|run| - 1], t)
    ensures IsRun(run + [t])
  {
    var more := run + [t];
    forall i | 0 <= i < |more| - 1 ensures StepAt(more, i) {
      if i < |run| - 1 {
        assert StepAt(run, i);
      }
    }
  }

  lemma Near(run: seq<System>, a: Action) returns (more: seq<System>)
    requires IsRun(run) && Enabled(run[|run| - 1], a)
    ensures IsRun(more) && more != [] && more[|more| - 1] == Act(run[|run| - 1], a)
  {
    Extend(run, Act(run[|run| - 1], a));
    more := run + [Act(run[|run| - 1], a)];
  }

  lemma Far(run: seq<System>, a: Action) returns (more: seq<System>)
    requires IsRun(run) && Enabled(Swap(run[|run| - 1]), a)
    ensures IsRun(more) && more != [] && more[|more| - 1] == Swap(Act(Swap(run[|run| - 1]), a))
  {
    var t := Swap(Act(Swap(run[|run| - 1]), a));
    Extend(run, t);
    more := run + [t];
  }

  const ACCEPT := Plain(Answer(true), true)

  /** A device that has sent an accept and received one, both in plaintext. */
  function Accepting(): Device {
    Fresh().(sent := [ACCEPT], received := [Receipt(ACCEPT, false, false)], delivered := [Answer(true)])
  }

  /** Both accepts are written, and both were read, but only the far device has recorded
      its own. */
  lemma BothAccept() returns (run: seq<System>)
    ensures IsRun(run) && run != []
    ensures var s := run[|run| - 1];
            && s.near == Accepting().(local := Written(true), remote := Some(true))
            && s.far == Accepting().(local := Answered(true), reader := Handling(true))
            && s.out == [] && s.back == []
  {
    run := [Initial()];
    run := Far(run, BeginAnswer(true));
    run := Far(run, Put);
    run := Far(run, Conclude);
    assert run[|run| - 1].back == [ACCEPT];
    run := Near(run, Read);
    run := Near(run, Handle);
    run := Near(run, BeginAnswer(true));
    run := Near(run, Put);
    assert run[|run| - 1].out == [ACCEPT];
    run := Far(run, Read);
  }

  /** The window is real: the far device encrypts a payload before the near one has
      enabled encryption. The near one reads it, retries, and delivers it. */
  lemma EarlyCiphertextIsDelivered() returns (run: seq<System>)
    ensures IsRun(run) && run != []
    ensures var s := run[|run| - 1];
            && s.near.report == Some(Accepted) && s.far.report == Some(Accepted)
            && s.near.delivered == [Answer(true), Payload] && !s.near.tryDecrypt
  {
    run := BothAccept();
    run := Far(run, Handle);
    run := Far(run, BeginFrame(Payload));
    run := Far(run, Put);
    assert run[|run| - 1].back == [Cipher(Payload, 0)];
    run := Near(run, Read);
    assert run[|run| - 1].near.reader == Retrying(Cipher(Payload, 0));
    run := Near(run, Conclude);
    run := Near(run, Retry);
  }

  /** The far device writes its accept and, before it has read the other's, disconnects. */
  lemma FarDisconnects() returns (run: seq<System>)
    ensures IsRun(run) && run != []
    ensures var s := run[|run| - 1];
            && s.near == Fresh() && s.far.report == Some(Failed)
            && s.out == [] && s.back == [ACCEPT, Plain(Disconnection, true)]
  {
    run := [Initial()];
    run := Far(run, BeginAnswer(true));
    run := Far(run, Put);
    run := Far(run, Conclude);
    run := Far(run, BeginFrame(Disconnection));
    run := Far(run, Put);
    run := Far(run, Disconnect);
  }

  /** Its disconnection is not heard: it reaches a reader that encrypts by now, and is
      erased. */
  lemma EarlyDisconnectionIsErased() returns (run: seq<System>)
    ensures IsRun(run) && run != []
    ensures var s := run[|run| - 1];
            && s.near.report == Some(Accepted) && s.far.report == Some(Failed)
            && Receipt(Plain(Disconnection, true), true, true) in s.near.received && Disconnection !in s.near.delivered
  {
    run := FarDisconnects();
    run := Near(run, Read);
    run := Near(run, Handle);
    run := Near(run, BeginAnswer(true));
    run := Near(run, Put);
    run := Near(run, Conclude);
    assert run[|run| - 1].near.encrypted && run[|run| - 1].back == [Plain(Disconnection, true)];
    run := Near(run, Read);
    var r := run[|run| - 1].near.received;
    assert r[|r| - 1] == Receipt(Plain(Disconnection, true), true, true);
  }
}
