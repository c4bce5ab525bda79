/**
  Handles that share one Gatt client per controller by counting.
*/
module GattClient {
  import opened Options

  type ControllerId = nat
  type RefId = nat

  /** What a controller keeps: whether it has a client, and the count. */
  datatype Shared = Shared(client: bool, count: int)

  function Acquired(c: Shared): Shared {
    c.(count := c.count + 1)
  }

  /** The client goes when the count comes down to zero. */
  function Released(c: Shared): Shared {
    Shared(c.client && c.count - 1 != 0, c.count - 1)
  }

  /** Asking a controller for a handle makes the client, and restarts the count, if there
      is none. */
  function Obtained(c: Shared): Shared {
    Acquired(if c.client then c else Shared(true, 0))
  }

  // ---------------------------------------------------------------- the objects

  class FastPairController {
    var client: bool
    var count: int

    function Value(): Shared
      reads this
    {
      Shared(client, count)
    }

    constructor ()
      ensures Value() == Shared(false, 0)
    {
      client, count := false, 0;
    }

    method AcquireGattClient()
      modifies this
      ensures Value() == Acquired(old(Value()))
    {
      count := count + 1;
    }

    method ReleaseGattClient()
      modifies this
      ensures Value() == Released(old(Value()))
    {
      count := count - 1;
      if count == 0 {
        client := false;
      }
    }

    method GetGattClientRef() returns (ref: GattClientRef)
      modifies this
      ensures fresh(ref) && ref.controller == this
      ensures Value() == Obtained(old(Value()))
    {
      if !client {
        count := 0;
        client := true;
      }
      ref := new GattClientRef(this);
    }
  }

  class GattClientRef {
    var controller: FastPairController?

    constructor (controller: FastPairController)
      modifies controller
      ensures this.controller == controller && controller.Value() == Acquired(old(controller.Value()))
    {
      this.controller := controller;
      new;
      controller.AcquireGattClient();
    }

    constructor Default()
      ensures controller == null
    {
      controller := null;
    }

    constructor Copy(other: GattClientRef)
      modifies other.controller
      ensures controller == other.controller == old(other.controller)
      ensures controller != null ==> controller.Value() == Acquired(old(other.controller.Value()))
    {
      controller := other.controller;
      new;
      if controller != null {
        controller.AcquireGattClient();
      }
    }

    constructor Move(other: GattClientRef)
      modifies other
      ensures controller == old(other.controller) && other.controller == null
    {
      controller := other.controller;
      new;
      other.controller := null;
    }

    /** Also when `other` is this very handle. */
    method CopyAssign(other: GattClientRef)
      modifies this, controller, other.controller
      ensures controller == old(other.controller)
      ensures this != other ==> other.controller == old(other.controller)
      ensures var a, b := old(controller), old(other.controller);
              && (a != null && a != b ==> a.Value() == Released(old(controller.Value())))
              && (b != null && a != b ==> b.Value() == Acquired(old(other.controller.Value())))
              && (a != null && a == b ==> a.Value() == Acquired(Released(old(controller.Value()))))
    {
      if controller != null {
        controller.ReleaseGattClient();
      }
      controller := other.controller;
      if controller != null {
        controller.AcquireGattClient();
      }
    }

    /** Also when `other` is this very handle, which then ends up empty. */
    method MoveAssign(other: GattClientRef)
      modifies this, other, controller
      ensures other.controller == null
      ensures this != other ==> controller == old(other.controller)
      ensures old(controller) != null ==> old(controller).Value() == Released(old(controller.Value()))
    {
      if controller != null {
        controller.ReleaseGattClient();
      }
      controller := other.controller;
      other.controller := null;
    }

    method Destroy()
      modifies controller
      ensures controller == old(controller)
      ensures controller != null ==> controller.Value() == Released(old(controller.Value()))
    {
      if controller != null {
        controller.ReleaseGattClient();
      }
    }

    /** Dereferencing; `None` where the source fails a check. */
    method Arrow() returns (client: Option<FastPairController>)
      ensures client == if controller != null && controller.client then Some(controller) else None
    {
      if controller == null || !controller.client {
        return None;
      }
      return Some(controller);
    }
  }

  // ---------------------------------------------------------------- runs

  /** All controllers, and the handles that are alive with the controller of each. */
  datatype State = State(controllers: map<ControllerId, Shared>, refs: map<RefId, Option<ControllerId>>)

  datatype Event =
    | Obtain(ref: RefId, controller: ControllerId)
    | Default(ref: RefId)
    | Copy(ref: RefId, other: RefId)
    | Move(ref: RefId, other: RefId)
    | CopyAssign(ref: RefId, other: RefId)
    | MoveAssign(ref: RefId, other: RefId)
    | Destroy(ref: RefId)

  function Init(): State {
    State(map[], map[])
  }

  function SharedOf(s: State, c: ControllerId): Shared {
    if c in s.controllers then s.controllers[c] else Shared(false, 0)
  }

  function Acquire(s: State, c: Option<ControllerId>): State {
    if c.None? then s else s.(controllers := s.controllers[c.value := Acquired(SharedOf(s, c.value))])
  }

  function Release(s: State, c: Option<ControllerId>): State {
    if c.None? then s else s.(controllers := s.controllers[c.value := Released(SharedOf(s, c.value))])
  }

  function Point(s: State, ref: RefId, c: Option<ControllerId>): State {
    s.(refs := s.refs[ref := c])
  }

  predicate Enabled(s: State, ev: Event) {
    match ev
    case Obtain(ref, _) => ref !in s.refs
    case Default(ref) => ref !in s.refs
    case Copy(ref, other) => ref !in s.refs && other in s.refs
    case Move(ref, other) => ref !in s.refs && other in s.refs
    case CopyAssign(ref, other) => ref in s.refs && other in s.refs
    case MoveAssign(ref, other) => ref in s.refs && other in s.refs
    case Destroy(ref) => ref in s.refs
  }

  function Next(s: State, ev: Event): State
    requires Enabled(s, ev)
  {
    match ev
    case Obtain(ref, c) => Point(s, ref, Some(c)).(controllers := s.controllers[c := Obtained(SharedOf(s, c))])
    case Default(ref) => Point(s, ref, None)
    case Copy(ref, other) => Acquire(Point(s, ref, s.refs[other]), s.refs[other])
    case Move(ref, other) => Point(Point(s, ref, s.refs[other]), other, None)
    case CopyAssign(ref, other) => Acquire(Point(Release(s, s.refs[ref]), ref, s.refs[other]), s.refs[other])
    case MoveAssign(ref, other) => Point(Point(Release(s, s.refs[ref]), ref, s.refs[other]), other, None)
    case Destroy(ref) =>
      var released := Release(s, s.refs[ref]);
      released.(refs := released.refs - {ref})
  }

  /** The live handles of a controller. */
  ghost function Holders(refs: map<RefId, Option<ControllerId>>, c: ControllerId): set<RefId> {
    set r | r in refs && refs[r] == Some(c)
  }

  /** The count is the number of live handles, and the client is there exactly while
      there is one. */
  ghost predicate Counted(s: State, c: ControllerId) {
    Fits(SharedOf(s, c), |Holders(s.refs, c)|)
  }

  predicate Fits(shared: Shared, holders: nat) {
    shared.count == holders && (shared.client <==> holders > 0)
  }

  /** One handle assigned to itself, while it is the only one. */
  predicate LosesItself(s: State, ev: Event, c: ControllerId)
    requires Enabled(s, ev)
  {
    ev.CopyAssign? && ev.ref == ev.other && s.refs[ev.ref] == Some(c) && SharedOf(s, c).count == 1
  }

  lemma PointHolders(refs: map<RefId, Option<ControllerId>>, ref: RefId, to: Option<ControllerId>, c: ControllerId)
    ensures |Holders(refs[ref := to], c)| ==
            |Holders(refs, c)| - (if ref in refs && refs[ref] == Some(c) then 1 else 0) + (if to == Some(c) then 1 else 0)
  {
    var others := Holders(refs, c) - {ref};
    WithAndWithout(refs, ref, c);
    WithAndWithout(refs[ref := to], ref, c);
    assert Holders(refs[ref := to], c) - {ref} == others;
  }

  lemma WithAndWithout(refs: map<RefId, Option<ControllerId>>, ref: RefId, c: ControllerId)
    ensures |Holders(refs, c)| == |Holders(refs, c) - {ref}| + if ref in refs && refs[ref] == Some(c) then 1 else 0
  {
    var all := Holders(refs, c);
    if ref in refs && refs[ref] == Some(c) {
      assert ref in all;
    } else {
      assert all - {ref} == all;
    }
  }

  lemma DropHolders(refs: map<RefId, Option<ControllerId>>, ref: RefId, c: ControllerId)
    requires ref in refs
    ensures |Holders(refs - {ref}, c)| == |Holders(refs, c)| - if refs[ref] == Some(c) then 1 else 0
  {
    assert Holders(refs - {ref}, c) == Holders(refs, c) - {ref};
  }

  lemma HolderIsOne(refs: map<RefId, Option<ControllerId>>, ref: RefId, c: ControllerId)
    requires ref in refs && refs[ref] == Some(c)
    ensures |Holders(refs, c)| > 0
    ensures forall other :: other in refs && refs[other] == Some(c) && other != ref ==> |Holders(refs, c)| > 1
  {
    assert ref in Holders(refs, c);
    forall other | other in refs && refs[other] == Some(c) && other != ref ensures |Holders(refs, c)| > 1 {
      var all := Holders(refs, c);
      assert other in all - {ref};
      assert |all - {ref}| == |all| - 1 && |all - {ref}| > 0;
    }
  }

  /** What every event does to one controller's counting: it keeps it, but for the one
      self-assignment. */
  lemma StepCounted(s: State, ev: Event, c: ControllerId)
    requires Enabled(s, ev) && Counted(s, c)
    ensures Counted(Next(s, ev), c) <==> !LosesItself(s, ev, c)
  {
    if ev.ref in s.refs && s.refs[ev.ref] == Some(c) {
      HolderIsOne(s.refs, ev.ref, c);
    }
    match ev
    case Obtain(ref, d) => PointHolders(s.refs, ref, Some(d), c);
    case Default(ref) => PointHolders(s.refs, ref, None, c);
    case Copy(ref, other) =>
      PointHolders(s.refs, ref, s.refs[other], c);
      if s.refs[other] == Some(c) {
        HolderIsOne(s.refs, other, c);
      }
    case Move(ref, other) =>
      PointHolders(s.refs, ref, s.refs[other], c);
      PointHolders(s.refs[ref := s.refs[other]], other, None, c);
    case CopyAssign(ref, other) =>
      PointHolders(s.refs, ref, s.refs[other], c);
      if s.refs[other] == Some(c) {
        HolderIsOne(s.refs, other, c);
      }
    case MoveAssign(ref, other) =>
      PointHolders(s.refs, ref, s.refs[other], c);
      PointHolders(s.refs[ref := s.refs[other]], other, None, c);
    case Destroy(ref) => DropHolders(s.refs, ref, c);
  }

  ghost predicate IsRun(states: seq<State>, events: seq<Event>) {
    && |states| == |events| + 1
    && states[0] == Init()
    && forall i :: 0 <= i < |events| ==> Enabled(states[i], events[i]) && states[i + 1] == Next(states[i], events[i])
  }

  ghost predicate AlwaysCounted(states: seq<State>, c: ControllerId, n: nat)
    requires n < |states|
  {
    forall i :: 0 <= i <= n ==> Counted(states[i], c)
  }

  ghost predicate NeverLost(states: seq<State>, events: seq<Event>, c: ControllerId, n: nat)
    requires IsRun(states, events) && n < |states|
  {
    forall i :: 0 <= i < n ==> !LosesItself(states[i], events[i], c)
  }

  /** Over any run the counting of a controller is right all along exactly if no only
      handle of it was copy-assigned to itself. */
  lemma {:induction false} CountedThroughout(states: seq<State>, events: seq<Event>, c: ControllerId, n: nat)
    requires IsRun(states, events) && n < |states|
    ensures AlwaysCounted(states, c, n) <==> NeverLost(states, events, c, n)
  {
    if n > 0 {
      CountedThroughout(states, events, c, n - 1);
      if AlwaysCounted(states, c, n - 1) {
        StepCounted(states[n - 1], events[n - 1], c);
        assert Counted(states[n], c) <==> !LosesItself(states[n - 1], events[n - 1], c);
      }
    } else {
      assert Holders(states[0].refs, c) == {};
    }
  }

  /** In a run without a copy-assignment of a handle to itself, dereferencing a live
      handle never fails. */
  lemma DereferenceSucceeds(states: seq<State>, events: seq<Event>, n: nat, ref: RefId, c: ControllerId)
    requires IsRun(states, events) && n < |states|
    requires forall i :: 0 <= i < n ==> !(events[i].CopyAssign? && events[i].ref == events[i].other)
    requires ref in states[n].refs && states[n].refs[ref] == Some(c)
    ensures SharedOf(states[n], c).client && SharedOf(states[n], c).count == |Holders(states[n].refs, c)|
  {
    CountedThroughout(states, events, c, n);
    HolderIsOne(states[n].refs, ref, c);
    assert Counted(states[n], c);
  }

  /** What the self-assignment costs: a live handle without a client; and asking for
      another handle then restarts the count, so that dropping it takes the client
      from under the first one. */
  lemma SelfAssignmentLosesTheClient(s: State, ref: RefId, c: ControllerId, extra: RefId)
    requires Enabled(s, CopyAssign(ref, ref)) && Counted(s, c) && LosesItself(s, CopyAssign(ref, ref), c)
    requires extra !in s.refs
    ensures var s1 := Next(s, CopyAssign(ref, ref));
            var s2 := Next(s1, Obtain(extra, c));
            var s3 := Next(s2, Destroy(extra));
            && s1.refs == s.refs && !SharedOf(s1, c).client
            && SharedOf(s2, c) == Shared(true, 1) && |Holders(s2.refs, c)| == 2
            && s3.refs[ref] == Some(c) && !SharedOf(s3, c).client
  {
    var s1 := Next(s, CopyAssign(ref, ref));
    assert s1.refs == s.refs;
    PointHolders(s1.refs, extra, Some(c), c);
  }
}
