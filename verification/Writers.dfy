/**
  Any number of threads writing to, pausing, encrypting and closing one channel.

  Every action is what a thread does inside one critical section, so a run of actions
  is an interleaving. Writing is finer still: bytes leave one chunk at a time, so that
  the streams may be closed in the middle of a frame.
*/
module Writers {
  import opened Options
  import opened Framing
  import opened Latches

  type Thread = nat

  /** Where a thread is. Only the owner of the writer mutex is in one of the states
      `Locked`, `Encoded` and `Sending`. */
  datatype Pc =
    | Idle
    | Waiting(data: seq<byte>)
    | Passed(data: seq<byte>)
    | Locked(data: seq<byte>)
    | Encoded(bytes: seq<byte>)
    | Sending(left: seq<byte>)
    | ClosingReader
    | ClosingWriter
    | ClosingMedium

  /** What reached the encryption context, in the order it did. */
  datatype Op = Message(data: seq<byte>) | Encrypt(cipher: Cipher) | Decrypt

  datatype State = State(
    pcs: map<Thread, Pc>,
    owner: Option<Thread>,
    context: Option<Context>,
    wire: seq<byte>,
    paused: bool,
    closed: bool,
    readerCloses: nat,
    writerCloses: nat,
    mediumCloses: nat,
    history: History)

  /** History, which no action looks at: the operations in the order they reached the
      context, and the thread that found the channel open when it closed it. */
  datatype History = History(ops: seq<Op>, closer: Option<Thread>)

  datatype Action =
    | Enter(t: Thread, data: seq<byte>)
    | Wake(t: Thread)
    | Lock(t: Thread)
    | Encipher(t: Thread)
    | Check(t: Thread)
    | Put(t: Thread, size: nat)
    | Unlock(t: Thread)
    | Pause
    | Resume
    | EnableEncryption(cipher: Cipher)
    | DisableEncryption
    | Close(t: Thread)
    | CloseReader(t: Thread)
    | CloseWriter(t: Thread)
    | CloseMedium(t: Thread)

  function PcOf(s: State, t: Thread): Pc {
    if t in s.pcs then s.pcs[t] else Idle
  }

  function Init(): State {
    State(map[], None, None, [], false, false, 0, 0, 0, History([], None))
  }

  function Move(s: State, t: Thread, pc: Pc): State {
    s.(pcs := s.pcs[t := pc])
  }

  /** Leave `Write`, giving the writer mutex back. */
  function Leave(s: State, t: Thread): State {
    Move(s, t, Idle).(owner := None)
  }

  function Log(s: State, op: Op): State {
    s.(history := s.history.(ops := s.history.ops + [op]))
  }

  predicate Enabled(s: State, a: Action) {
    match a
    case Enter(t, _) => PcOf(s, t).Idle?
    case Wake(t) => PcOf(s, t).Waiting?
    case Lock(t) => PcOf(s, t).Passed? && s.owner.None?
    case Encipher(t) => PcOf(s, t).Locked?
    case Check(t) => PcOf(s, t).Encoded?
    case Put(t, size) => PcOf(s, t).Sending? && 0 < size <= |PcOf(s, t).left|
    case Unlock(t) => PcOf(s, t).Sending? && PcOf(s, t).left == []
    case Close(t) => PcOf(s, t).Idle?
    case CloseReader(t) => PcOf(s, t).ClosingReader?
    case CloseWriter(t) => PcOf(s, t).ClosingWriter?
    case CloseMedium(t) => PcOf(s, t).ClosingMedium?
    case _ => true
  }

  function Next(s: State, a: Action): State
    requires Enabled(s, a)
  {
    match a
    case Enter(t, data) => Move(s, t, if s.paused then Waiting(data) else Passed(data))
    case Wake(t) => if s.paused then s else Move(s, t, Passed(PcOf(s, t).data))
    case Lock(t) => Move(s, t, Locked(PcOf(s, t).data)).(owner := Some(t))
    case Encipher(t) =>
      var data := PcOf(s, t).data;
      (match Encode(s.context, data)
       case None => Leave(Log(s, Message(data)), t)
       case Some((bytes, context)) => Move(Log(s, Message(data)), t, Encoded(bytes)).(context := context))
    case Check(t) =>
      var bytes := PcOf(s, t).bytes;
      if |bytes| > MAX_ALLOWED_READ_BYTES then Leave(s, t)
      else Move(s, t, Sending(Frame(bytes)))
    case Put(t, size) =>
      var left := PcOf(s, t).left;
      if s.writerCloses > 0 then Leave(s, t)
      else Move(s, t, Sending(left[size..])).(wire := s.wire + left[..size])
    case Unlock(t) => Leave(s, t)
    case Pause => s.(paused := true)
    case Resume => s.(paused := false)
    case EnableEncryption(cipher) => Log(s, Encrypt(cipher)).(context := Some(Context(cipher, 0, 0)))
    case DisableEncryption => Log(s, Decrypt).(context := None)
    case Close(t) =>
      if s.closed then s
      else Move(s, t, ClosingReader).(closed := true, paused := false, history := s.history.(closer := Some(t)))
    case CloseReader(t) => Move(s, t, ClosingWriter).(readerCloses := s.readerCloses + 1)
    case CloseWriter(t) => Move(s, t, ClosingMedium).(writerCloses := s.writerCloses + 1)
    case CloseMedium(t) => Move(s, t, Idle).(mediumCloses := s.mediumCloses + 1)
  }

  /** A run: the states before, between and after the actions. */
  ghost predicate IsRun(states: seq<State>, actions: seq<Action>) {
    && |states| == |actions| + 1
    && states[0] == Init()
    && forall i :: 0 <= i < |actions| ==> IsStep(states, actions, i)
  }

  ghost predicate IsStep(states: seq<State>, actions: seq<Action>, i: nat)
    requires i < |actions| < |states|
  {
    Enabled(states[i], actions[i]) && states[i + 1] == Next(states[i], actions[i])
  }

  // ---------------------------------------------------------------- one writer at a time

  /** The channel as the operations would leave it if they were carried out one after
      another, by a single thread. */
  function Sequential(ops: seq<Op>): Channel {
    if ops == [] then Channel([], [], None, true)
    else Apply(Sequential(ops[..|ops| - 1]), ops[|ops| - 1])
  }

  function Apply(ch: Channel, op: Op): Channel {
    match op
    case Message(data) => WriteTo(ch, data).0
    case Encrypt(cipher) => Enable(ch, cipher)
    case Decrypt => ch.(context := None)
  }

  lemma SequentialAppend(ops: seq<Op>, op: Op)
    ensures Sequential(ops + [op]) == Apply(Sequential(ops), op)
  {
    assert (ops + [op])[..|ops|] == ops;
  }

  lemma {:induction false} SequentialIsOpen(ops: seq<Op>)
    ensures Sequential(ops).open
  {
    if ops != [] {
      SequentialIsOpen(ops[..|ops| - 1]);
    }
  }

  /** The bytes the owner of the writer mutex has encoded and not yet written. */
  function Owed(s: State): seq<byte> {
    if s.owner.None? then []
    else
      match PcOf(s, s.owner.value)
      case Encoded(bytes) => if |bytes| > MAX_ALLOWED_READ_BYTES then [] else Frame(bytes)
      case Sending(left) => left
      case _ => []
  }

  predicate Writing(pc: Pc) {
    pc.Locked? || pc.Encoded? || pc.Sending?
  }

  predicate Closing(pc: Pc) {
    pc.ClosingReader? || pc.ClosingWriter? || pc.ClosingMedium?
  }

  ghost predicate OneOwner(s: State) {
    forall t: Thread :: Writing(PcOf(s, t)) <==> s.owner == Some(t)
  }

  /** The wire is what a single thread would have written, short of what the owner of
      the mutex still owes; once the stream is closed, it is a prefix of that. */
  ghost predicate InOrder(s: State) {
    && Sequential(s.history.ops).context == s.context
    && s.wire <= Sequential(s.history.ops).output
    && (s.writerCloses == 0 ==> s.wire + Owed(s) == Sequential(s.history.ops).output)
  }

  /** How far the closing has come follows from where the one closer is. */
  ghost predicate ClosedOnce(s: State) {
    && (s.closed <==> s.history.closer.Some?)
    && (forall t: Thread :: Closing(PcOf(s, t)) ==> s.history.closer == Some(t))
    && (s.readerCloses, s.writerCloses, s.mediumCloses) ==
       if s.history.closer.None? then (0, 0, 0)
       else
         match PcOf(s, s.history.closer.value)
         case ClosingReader => (0, 0, 0)
         case ClosingWriter => (1, 0, 0)
         case ClosingMedium => (1, 1, 0)
         case _ => (1, 1, 1)
  }

  ghost predicate Inv(s: State) {
    OneOwner(s) && InOrder(s) && ClosedOnce(s)
  }

  lemma OwnerStep(s: State, a: Action)
    requires OneOwner(s) && Enabled(s, a)
    ensures OneOwner(Next(s, a))
  {
  }

  /** Only the actions of closing matter to it. */
  lemma CloseFrame(s: State, n: State, t: Thread, pc: Pc)
    requires ClosedOnce(s) && !Closing(PcOf(s, t)) && !Closing(pc)
    requires n.pcs == s.pcs || n.pcs == s.pcs[t := pc]
    requires n.closed == s.closed && n.history.closer == s.history.closer
    requires (n.readerCloses, n.writerCloses, n.mediumCloses) == (s.readerCloses, s.writerCloses, s.mediumCloses)
    ensures ClosedOnce(n)
  {
  }

  lemma CloserStep(s: State, a: Action)
    requires ClosedOnce(s) && Enabled(s, a)
    requires a.Close? || a.CloseReader? || a.CloseWriter? || a.CloseMedium?
    ensures ClosedOnce(Next(s, a))
  {
    assert Closing(PcOf(s, a.t)) ==> s.history.closer == Some(a.t);
  }

  predicate WriterAction(a: Action) {
    a.Enter? || a.Wake? || a.Lock? || a.Encipher? || a.Check? || a.Put? || a.Unlock?
  }

  lemma WriterStep(s: State, a: Action)
    requires Enabled(s, a) && WriterAction(a)
    ensures !Closing(PcOf(s, a.t))
    ensures var n := Next(s, a);
            && !Closing(PcOf(n, a.t)) && (n.pcs == s.pcs || n.pcs == s.pcs[a.t := PcOf(n, a.t)])
            && n.closed == s.closed && n.history.closer == s.history.closer
            && (n.readerCloses, n.writerCloses, n.mediumCloses) == (s.readerCloses, s.writerCloses, s.mediumCloses)
  {
  }

  lemma CloseStep(s: State, a: Action)
    requires ClosedOnce(s) && Enabled(s, a)
    ensures ClosedOnce(Next(s, a))
  {
    if WriterAction(a) {
      WriterStep(s, a);
      CloseFrame(s, Next(s, a), a.t, PcOf(Next(s, a), a.t));
    } else if a.Close? || a.CloseReader? || a.CloseWriter? || a.CloseMedium? {
      CloserStep(s, a);
    }
  }

  lemma EncipherRefused(s: State, t: Thread)
    requires OneOwner(s) && InOrder(s) && Enabled(s, Encipher(t)) && Encode(s.context, PcOf(s, t).data).None?
    ensures InOrder(Next(s, Encipher(t)))
  {
    assert Writing(PcOf(s, t));
    SequentialAppend(s.history.ops, Message(PcOf(s, t).data));
  }

  lemma EncipherInOrder(s: State, t: Thread)
    requires OneOwner(s) && InOrder(s) && Enabled(s, Encipher(t)) && Encode(s.context, PcOf(s, t).data).Some?
    ensures InOrder(Next(s, Encipher(t)))
  {
    var data, n := PcOf(s, t).data, Next(s, Encipher(t));
    assert Writing(PcOf(s, t));
    SequentialAppend(s.history.ops, Message(data));
    SequentialIsOpen(s.history.ops);
    var was, now := Sequential(s.history.ops), Sequential(n.history.ops);
    assert now == WriteTo(was, data).0;
    assert Owed(s) == [] && s.wire + [] == s.wire;
    assert PcOf(n, t) == Encoded(Encode(s.context, data).value.0);
    assert now.output == was.output + Owed(n);
  }

  lemma PutInOrder(s: State, t: Thread, size: nat)
    requires OneOwner(s) && InOrder(s) && Enabled(s, Put(t, size))
    ensures InOrder(Next(s, Put(t, size)))
  {
    var left := PcOf(s, t).left;
    assert Writing(PcOf(s, t));
    assert left == left[..size] + left[size..];
    assert (s.wire + left[..size]) + left[size..] == s.wire + left;
  }

  /** The owner's other steps change neither the wire nor what is owed. */
  lemma OwnerInOrder(s: State, a: Action)
    requires OneOwner(s) && InOrder(s) && Enabled(s, a) && (a.Lock? || a.Check? || a.Unlock?)
    ensures InOrder(Next(s, a))
  {
    assert Writing(PcOf(s, a.t)) <==> s.owner == Some(a.t);
    assert Owed(Next(s, a)) == Owed(s);
  }

  /** Nor do the steps of a thread outside the mutex. */
  lemma OtherInOrder(s: State, a: Action)
    requires OneOwner(s) && InOrder(s) && Enabled(s, a)
    requires a.Enter? || a.Wake? || a.Close? || a.CloseReader? || a.CloseWriter? || a.CloseMedium?
    ensures InOrder(Next(s, a))
  {
    assert Writing(PcOf(s, a.t)) <==> s.owner == Some(a.t);
    assert Owed(Next(s, a)) == Owed(s);
  }

  /** Nor do those that no writer takes; a change of context is next in order. */
  lemma FreeInOrder(s: State, a: Action)
    requires InOrder(s) && (a.EnableEncryption? || a.DisableEncryption? || a.Pause? || a.Resume?)
    ensures InOrder(Next(s, a))
  {
    assert Owed(Next(s, a)) == Owed(s);
    match a
    case EnableEncryption(cipher) => SequentialAppend(s.history.ops, Encrypt(cipher));
    case DisableEncryption => SequentialAppend(s.history.ops, Decrypt);
    case _ =>
  }

  lemma EncipherStep(s: State, t: Thread)
    requires OneOwner(s) && InOrder(s) && Enabled(s, Encipher(t))
    ensures InOrder(Next(s, Encipher(t)))
  {
    if Encode(s.context, PcOf(s, t).data).None? {
      EncipherRefused(s, t);
    } else {
      EncipherInOrder(s, t);
    }
  }

  lemma OrderStep(s: State, a: Action)
    requires OneOwner(s) && InOrder(s) && Enabled(s, a)
    ensures InOrder(Next(s, a))
  {
    match a
    case Encipher(t) => EncipherStep(s, t);
    case Put(t, size) => PutInOrder(s, t, size);
    case EnableEncryption(_) => FreeInOrder(s, a);
    case DisableEncryption => FreeInOrder(s, a);
    case Pause => FreeInOrder(s, a);
    case Resume => FreeInOrder(s, a);
    case Lock(_) => OwnerInOrder(s, a);
    case Check(_) => OwnerInOrder(s, a);
    case Unlock(_) => OwnerInOrder(s, a);
    case _ => OtherInOrder(s, a);
  }

  lemma {:induction false} Reachable(states: seq<State>, actions: seq<Action>, i: nat)
    requires IsRun(states, actions) && i < |states|
    ensures Inv(states[i])
  {
    if i > 0 {
      Reachable(states, actions, i - 1);
      assert IsStep(states, actions, i - 1);
      OwnerStep(states[i - 1], actions[i - 1]);
      OrderStep(states[i - 1], actions[i - 1]);
      CloseStep(states[i - 1], actions[i - 1]);
    }
  }

  // ---------------------------------------------------------------- frames and their numbers

  /** A message that was encoded: its place in the order of encoding, the stretch
      between two changes of context it belongs to, and its number there. */
  datatype Item = Item(ticket: nat, epoch: nat, encrypted: bool, number: nat, payload: seq<byte>)

  function Epoch(ops: seq<Op>): nat {
    if ops == [] then 0
    else Epoch(ops[..|ops| - 1]) + if ops[|ops| - 1].Message? then 0 else 1
  }

  function Number(context: Option<Context>): nat {
    if context.None? then 0 else context.value.sent
  }

  /** Everything that was encoded, in order. */
  function Items(ops: seq<Op>): seq<Item> {
    if ops == [] then []
    else
      var before := ops[..|ops| - 1];
      var context := Sequential(before).context;
      Items(before) +
      match ops[|ops| - 1]
      case Message(data) =>
        (match Encode(context, data)
         case None => []
         case Some((bytes, _)) => [Item(|before|, Epoch(before), context.Some?, Number(context), bytes)])
      case _ => []
  }

  /** Those that were not refused for their size. */
  function Accepted(items: seq<Item>): seq<Item> {
    if items == [] then []
    else
      var last := items[|items| - 1];
      Accepted(items[..|items| - 1]) + if |last.payload| <= MAX_ALLOWED_READ_BYTES then [last] else []
  }

  ghost predicate InBounds(items: seq<Item>) {
    forall k :: 0 <= k < |items| ==> |items[k].payload| <= MAX_ALLOWED_READ_BYTES
  }

  function Frames(items: seq<Item>): seq<byte>
    requires InBounds(items)
  {
    if items == [] then [] else Frames(items[..|items| - 1]) + Frame(items[|items| - 1].payload)
  }

  lemma {:induction false} AcceptedIn(items: seq<Item>)
    ensures InBounds(Accepted(items))
    ensures forall k :: 0 <= k < |Accepted(items)| ==> Accepted(items)[k] in items
  {
    if items != [] {
      AcceptedIn(items[..|items| - 1]);
    }
  }

  function Bytes(items: seq<Item>): seq<byte> {
    AcceptedIn(items);
    Frames(Accepted(items))
  }

  lemma BytesAppend(items: seq<Item>, item: Item)
    ensures Bytes(items + [item]) ==
            if |item.payload| <= MAX_ALLOWED_READ_BYTES then Bytes(items) + Frame(item.payload) else Bytes(items)
  {
    assert (items + [item])[..|items|] == items;
    AcceptedIn(items);
    if |item.payload| <= MAX_ALLOWED_READ_BYTES {
      assert (Accepted(items) + [item])[..|Accepted(items)|] == Accepted(items);
    } else {
      assert Accepted(items + [item]) == Accepted(items) + [] == Accepted(items);
    }
  }

  /** What a single thread writes is the frames of the accepted messages, in order. */
  lemma {:induction false} OutputIsFrames(ops: seq<Op>)
    ensures Sequential(ops).output == Bytes(Items(ops))
  {
    if ops != [] {
      var before := ops[..|ops| - 1];
      OutputIsFrames(before);
      SequentialIsOpen(before);
      var op := ops[|ops| - 1];
      if op.Message? && Encode(Sequential(before).context, op.data).Some? {
        BytesAppend(Items(before), Items(ops)[|Items(ops)| - 1]);
      } else {
        assert Items(ops) == Items(before) + [] == Items(before);
      }
    }
  }

  /** One encoded message after another: a later ticket, and, within one context, a
      number as much higher as there are messages between. */
  ghost predicate Follows(items: seq<Item>, i: nat, j: nat)
    requires i < j < |items|
  {
    && items[i].ticket < items[j].ticket
    && items[i].epoch <= items[j].epoch
    && (items[i].epoch == items[j].epoch && items[i].encrypted ==> items[j].number - items[i].number == j - i)
  }

  /** How the items relate to the operations so far. */
  ghost predicate Recent(ops: seq<Op>, items: seq<Item>, k: nat)
    requires k < |items|
  {
    var context := Sequential(ops).context;
    && items[k].ticket < |ops| && items[k].epoch <= Epoch(ops)
    && (items[k].epoch == Epoch(ops) ==>
          items[k].encrypted == context.Some? && (context.Some? ==> context.value.sent - items[k].number == |items| - k))
  }

  lemma {:induction false} NumbersAreDense(ops: seq<Op>)
    ensures forall k: nat :: k < |Items(ops)| ==> Recent(ops, Items(ops), k)
    ensures forall i: nat, j: nat :: i < j < |Items(ops)| ==> Follows(Items(ops), i, j)
  {
    if ops != [] {
      var before := ops[..|ops| - 1];
      NumbersAreDense(before);
      var was, items := Items(before), Items(ops);
      forall k: nat | k < |items| ensures Recent(ops, items, k) {
        assert k < |was| ==> Recent(before, was, k);
      }
      forall i: nat, j: nat | i < j < |items| ensures Follows(items, i, j) {
        assert Recent(before, was, i);
        assert j < |was| ==> Follows(was, i, j);
      }
    }
  }

  // ---------------------------------------------------------------- what holds of every run

  /** Whole frames: at every moment the wire is the frames of the messages encoded so
      far, in the order they were encoded and short of what the owner of the mutex still
      owes. If the stream was closed, what was cut off is the end of it. */
  lemma WholeFrames(states: seq<State>, actions: seq<Action>, i: nat)
    requires IsRun(states, actions) && i < |states|
    ensures var s := states[i];
            && s.wire <= Bytes(Items(s.history.ops))
            && (s.writerCloses == 0 ==> s.wire + Owed(s) == Bytes(Items(s.history.ops)))
            && (s.writerCloses == 0 && s.owner.None? ==> s.wire == Bytes(Items(s.history.ops)))
  {
    Reachable(states, actions, i);
    OutputIsFrames(states[i].history.ops);
    assert states[i].wire + [] == states[i].wire;
  }

  ghost predicate Before(a: Item, b: Item) {
    a.ticket < b.ticket && a.epoch <= b.epoch && (a.epoch == b.epoch && a.encrypted ==> a.number < b.number)
  }

  lemma {:induction false} AcceptedInOrder(items: seq<Item>)
    requires forall i: nat, j: nat :: i < j < |items| ==> Before(items[i], items[j])
    ensures forall i: nat, j: nat :: i < j < |Accepted(items)| ==> Before(Accepted(items)[i], Accepted(items)[j])
  {
    if items != [] {
      var before := items[..|items| - 1];
      AcceptedInOrder(before);
      AcceptedIn(before);
    }
  }

  /** The frames on the wire carry strictly increasing tickets and, within one context,
      strictly increasing numbers. */
  lemma WireOrder(ops: seq<Op>)
    ensures var sent := Accepted(Items(ops));
            forall i: nat, j: nat :: i < j < |sent| ==> Before(sent[i], sent[j])
  {
    NumbersAreDense(ops);
    var items := Items(ops);
    forall i: nat, j: nat | i < j < |items| ensures Before(items[i], items[j]) {
      assert Follows(items, i, j);
    }
    AcceptedInOrder(items);
  }

  function Messages(ms: seq<seq<byte>>): seq<Op> {
    seq(|ms|, i requires 0 <= i < |ms| => Message(ms[i]))
  }

  /** Carrying out messages one after another is what `WriteMany` does. */
  lemma {:induction false} SequentialWrites(ops: seq<Op>, ms: seq<seq<byte>>)
    ensures Sequential(ops + Messages(ms)) == WriteMany(Sequential(ops), ms)
    decreases |ms|
  {
    if ms == [] {
      assert ops + Messages(ms) == ops;
    } else {
      SequentialAppend(ops, Message(ms[0]));
      SequentialWrites(ops + [Message(ms[0])], ms[1..]);
      assert ops + Messages(ms) == ops + [Message(ms[0])] + Messages(ms[1..]);
    }
  }

  lemma {:induction false} WriteManyKeeps(ch: Channel, ms: seq<seq<byte>>)
    ensures WriteMany(ch, ms).open == ch.open && (ch.context.None? ==> WriteMany(ch, ms).context.None?)
    decreases |ms|
  {
    if ms != [] {
      WriteManyKeeps(WriteTo(ch, ms[0]).0, ms[1..]);
    }
  }

  /** What a single thread has written after the plaintext messages, and has then. */
  lemma SwitchingWriter(plain: seq<seq<byte>>, secret: seq<seq<byte>>, cipher: Cipher)
    ensures var w1 := WriteMany(Sequential([]), plain);
            && w1.open && w1.context.None?
            && Sequential(Messages(plain) + [Encrypt(cipher)] + Messages(secret)) == WriteMany(Enable(w1, cipher), secret)
            && w1.output <= WriteMany(Enable(w1, cipher), secret).output
  {
    SequentialWrites([], plain);
    assert [] + Messages(plain) == Messages(plain);
    SequentialAppend(Messages(plain), Encrypt(cipher));
    SequentialWrites(Messages(plain) + [Encrypt(cipher)], secret);
    WriteManyKeeps(Sequential([]), plain);
    WriteManyAppends(Enable(WriteMany(Sequential([]), plain), cipher), secret);
  }

  /** However the threads interleaved, a reader that switches over at the same place hears,
      in the order of encoding, exactly the plaintext messages within the limit, and then
      exactly the encrypted ones up to the first that was refused for its size. */
  lemma ConcurrentRoundTrip(states: seq<State>, actions: seq<Action>, i: nat, plain: seq<seq<byte>>, secret: seq<seq<byte>>,
                            cipher: Cipher, isKeepAlive: seq<byte> -> bool)
    requires IsRun(states, actions) && i < |states|
    requires states[i].writerCloses == 0 && states[i].owner.None?
    requires states[i].history.ops == Messages(plain) + [Encrypt(cipher)] + Messages(secret)
    requires Lawful(cipher) && Strict(cipher, isKeepAlive)
    ensures var reader, w0 := Channel(states[i].wire, [], None, true), Sequential([]);
            var w1 := Enable(WriteMany(w0, plain), cipher);
            var (r1, first) := HearMany(reader, CountWritten(w0, plain), isKeepAlive);
            var (r2, second) := HearMany(Enable(r1, cipher), CountWritten(w1, secret), isKeepAlive);
            first == Heard(w0, plain) && second == Heard(w1, secret) && r2.input == []
  {
    var s, w0 := states[i], Sequential([]);
    Reachable(states, actions, i);
    assert s.wire + [] == s.wire;
    SwitchingWriter(plain, secret, cipher);
    var w1 := Enable(WriteMany(w0, plain), cipher);
    var reader := Channel(s.wire, [], None, true);
    var b1, b2 := Cut([], w1.output, s.wire, s.wire);
    assert w0.output + b1 == b1;
    HearsExactly(w0, reader, plain, b1, b2, isKeepAlive);
    assert b2 + [] == b2;
    HearsExactly(w1, Enable(HearMany(reader, CountWritten(w0, plain), isKeepAlive).0, cipher), secret, b2, [], isKeepAlive);
  }

  /** Something that lets a paused writer go. */
  predicate Releases(s: State, a: Action) {
    a.Resume? || (a.Close? && !s.closed)
  }

  /** What a writer finding the channel paused leaves behind: it waits, and the channel
      stays paused, until something releases it. */
  lemma {:induction false} HeldUntilReleased(states: seq<State>, actions: seq<Action>, i: nat, j: nat)
    requires IsRun(states, actions) && i < j <= |actions|
    requires actions[i].Enter? && states[i].paused
    requires forall k :: i < k < j ==> !Releases(states[k], actions[k])
    ensures states[j].paused && PcOf(states[j], actions[i].t) == Waiting(actions[i].data)
    decreases j
  {
    if j == i + 1 {
      assert IsStep(states, actions, i);
    } else {
      HeldUntilReleased(states, actions, i, j - 1);
      assert IsStep(states, actions, j - 1);
      assert !Releases(states[j - 1], actions[j - 1]);
    }
  }

  /** A writer that finds the channel paused adds no byte before a later resume or the
      closing of the channel. */
  lemma PausedWriterIsSilent(states: seq<State>, actions: seq<Action>, i: nat, j: nat)
    requires IsRun(states, actions) && i < j < |actions|
    requires actions[i].Enter? && states[i].paused
    requires WriterAction(actions[j]) && actions[j].t == actions[i].t && states[j + 1].wire != states[j].wire
    ensures exists k :: i < k < j && Releases(states[k], actions[k])
  {
    assert IsStep(states, actions, j);
    assert actions[j].Put?;
    if forall k :: i < k < j ==> !Releases(states[k], actions[k]) {
      HeldUntilReleased(states, actions, i, j);
      assert false;
    }
  }

  /** The actions that pause, and those that release. */
  function Pauses(actions: seq<Action>): seq<bool> {
    seq(|actions|, i requires 0 <= i < |actions| => actions[i].Pause?)
  }

  function Released(states: seq<State>, actions: seq<Action>): seq<bool>
    requires |states| == |actions| + 1
  {
    seq(|actions|, i requires 0 <= i < |actions| => Releases(states[i], actions[i]))
  }

  lemma PauseStep(s: State, a: Action)
    requires Enabled(s, a)
    ensures Next(s, a).paused <==> a.Pause? || (s.paused && !Releases(s, a))
  {
  }

  /** The channel is paused exactly if it was paused and not resumed or first closed since. */
  lemma {:induction false} PausedExactly(states: seq<State>, actions: seq<Action>, m: nat)
    requires IsRun(states, actions) && m < |states|
    ensures states[m].paused <==> exists j: nat :: j < m && Latched(Pauses(actions), Released(states, actions), j, m)
  {
    if m > 0 {
      PausedExactly(states, actions, m - 1);
      assert IsStep(states, actions, m - 1);
      PauseStep(states[m - 1], actions[m - 1]);
      LatchStep(Pauses(actions), Released(states, actions), m - 1, m);
    }
  }

  /** A writer that comes to the gate, or wakes there, goes through exactly if the channel is
      not paused then. */
  lemma GateOpens(states: seq<State>, actions: seq<Action>, i: nat)
    requires IsRun(states, actions) && i < |actions| && (actions[i].Enter? || actions[i].Wake?)
    ensures PcOf(states[i + 1], actions[i].t).Waiting? <==> states[i].paused
    ensures PcOf(states[i + 1], actions[i].t).Passed? <==> !states[i].paused
    ensures actions[i].Enter? ==> PcOf(states[i + 1], actions[i].t).data == actions[i].data
  {
    assert IsStep(states, actions, i);
  }

  lemma Continue(states: seq<State>, actions: seq<Action>, a: Action) returns (more: seq<State>, acts: seq<Action>)
    requires IsRun(states, actions) && Enabled(states[|actions|], a)
    ensures IsRun(more, acts) && acts == actions + [a] && more == states + [Next(states[|actions|], a)]
  {
    acts := actions + [a];
    more := states + [Next(states[|actions|], a)];
    forall i | 0 <= i < |acts| ensures IsStep(more, acts, i) {
      if i < |actions| {
        assert IsStep(states, actions, i);
      }
    }
  }

  /** A writer is through the gate when the channel is paused. */
  lemma PausedBehindAWriter() returns (states: seq<State>, actions: seq<Action>)
    ensures IsRun(states, actions) && |actions| == 4 && actions[1].Pause?
    ensures var s := states[4]; PcOf(s, 1) == Encoded([]) && s.paused && s.writerCloses == 0
  {
    states, actions := [Init()], [];
    states, actions := Continue(states, actions, Enter(1, []));
    states, actions := Continue(states, actions, Action.Pause);
    states, actions := Continue(states, actions, Lock(1));
    states, actions := Continue(states, actions, Encipher(1));
  }

  /** Only that: a writer that went through the gate before the pause still writes. */
  lemma PauseDoesNotStopAWriterInside() returns (states: seq<State>, actions: seq<Action>)
    ensures IsRun(states, actions)
    ensures exists i: nat, j: nat :: i < j < |actions| && actions[i].Pause? && states[j].paused && |states[j].wire| < |states[j + 1].wire|
  {
    states, actions := PausedBehindAWriter();
    states, actions := Continue(states, actions, Check(1));
    states, actions := Continue(states, actions, Put(1, 4));
    assert actions[1].Pause? && states[5].paused && |states[5].wire| < |states[5 + 1].wire|;
  }

  /** However many threads close the channel, the reader, the writer and the medium are
      each closed at most once, in this order; and exactly once when the channel is
      closed and no thread is still at it. */
  lemma CloseOnce(states: seq<State>, actions: seq<Action>, i: nat)
    requires IsRun(states, actions) && i < |states|
    ensures var s := states[i];
            && 1 >= s.readerCloses >= s.writerCloses >= s.mediumCloses
            && (!s.closed ==> s.readerCloses == 0)
            && (s.closed && (forall t: Thread :: !Closing(PcOf(s, t))) ==> s.readerCloses == s.writerCloses == s.mediumCloses == 1)
            && (forall t: Thread, u: Thread :: Closing(PcOf(s, t)) && Closing(PcOf(s, u)) ==> t == u)
  {
    Reachable(states, actions, i);
  }
}
