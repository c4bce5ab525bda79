/**
  The index of discovered endpoints, and what the client is told about it.
*/
module Discovery {
  import opened Options
  import opened Mediums

  type Id = string
  type Info = seq<nat>

  datatype WebRtcState = Undefined | Connectable | Unconnectable

  datatype Record = Record(id: Id, info: Info, service: string, medium: Medium, webRtc: WebRtcState)

  /** A call to the client. */
  datatype Call =
    | Found(service: string, id: Id, info: Info, medium: Medium)
    | Lost(service: string, id: Id)

  /** The multimap, each id's records in the order they were added, and the calls made
      in this discovery session. */
  datatype Index = Index(endpoints: map<Id, seq<Record>>, calls: seq<Call>)

  function Init(): Index {
    Index(map[], [])
  }

  /** The records of an id. */
  function Range(endpoints: map<Id, seq<Record>>, id: Id): seq<Record> {
    if id in endpoints then endpoints[id] else []
  }

  /** The multimap with other records for one id. */
  function Put(endpoints: map<Id, seq<Record>>, id: Id, range: seq<Record>): map<Id, seq<Record>> {
    if range == [] then endpoints - {id} else endpoints[id := range]
  }

  /** The place of the first record found over a medium, or the end. */
  function FirstOver(range: seq<Record>, medium: Medium): (k: nat)
    ensures k <= |range| && (k < |range| ==> range[k].medium == medium)
    ensures forall i :: 0 <= i < k ==> range[i].medium != medium
  {
    if range == [] || range[0].medium == medium then 0 else 1 + FirstOver(range[1..], medium)
  }

  function Remove(range: seq<Record>, k: nat): seq<Record>
    requires k < |range|
  {
    range[..k] + range[k + 1..]
  }

  function FoundCall(r: Record): Call {
    Found(r.service, r.id, r.info, r.medium)
  }

  function OnFound(ix: Index, r: Record): Index {
    var range := Range(ix.endpoints, r.id);
    var k := FirstOver(range, r.medium);
    if k == |range| then
      Index(Put(ix.endpoints, r.id, range + [r]), if range == [] then ix.calls + [FoundCall(r)] else ix.calls)
    else if range[k].info != r.info then
      Index(Put(ix.endpoints, r.id, Remove(range, k) + [r]), ix.calls + [Lost(range[k].service, r.id), FoundCall(r)])
    else ix
  }

  function OnLost(ix: Index, r: Record): Index {
    var range := Range(ix.endpoints, r.id);
    var k := FirstOver(range, r.medium);
    if k == |range| then ix
    else Index(Put(ix.endpoints, r.id, Remove(range, k)), if |range| == 1 then ix.calls + [Lost(r.service, r.id)] else ix.calls)
  }

  function AppendBluetooth(ix: Index, id: Id, allowed: bool, deviceIsValid: bool): Index {
    var range := Range(ix.endpoints, id);
    if !allowed || range == [] || FirstOver(range, BLUETOOTH) < |range| || !deviceIsValid then ix
    else
      var r := Record(id, range[0].info, range[0].service, BLUETOOTH, Unconnectable);
      ix.(endpoints := Put(ix.endpoints, id, range + [r]))
  }

  predicate SomeConnectable(range: seq<Record>) {
    exists i :: 0 <= i < |range| && range[i].webRtc != Unconnectable
  }

  function AppendWebRtc(ix: Index, id: Id, allowed: bool): Index {
    var range := Range(ix.endpoints, id);
    if !allowed || !SomeConnectable(range) then ix
    else
      var r := Record(id, range[0].info, range[0].service, WEB_RTC, Connectable);
      ix.(endpoints := Put(ix.endpoints, id, range + [r]))
  }

  // ---------------------------------------------------------------- the object

  class EndpointIndex {
    var endpoints: map<Id, seq<Record>>
    var calls: seq<Call>

    function Value(): Index
      reads this
    {
      Index(endpoints, calls)
    }

    constructor ()
      ensures Value() == Init()
    {
      endpoints, calls := map[], [];
    }

    /** Starting discovery forgets what an earlier session found. */
    method StartDiscovery()
      modifies this
      ensures Value() == Init()
    {
      endpoints, calls := map[], [];
    }

    method OnEndpointFound(r: Record)
      modifies this
      ensures Value() == OnFound(old(Value()), r)
    {
      var range := Range(endpoints, r.id);
      for i := 0 to |range|
        invariant Value() == old(Value())
        invariant forall j :: 0 <= j < i ==> range[j].medium != r.medium
      {
        if range[i].medium != r.medium {
          continue;
        }
        assert i == FirstOver(range, r.medium);
        if range[i].info != r.info {
          calls := calls + [Lost(range[i].service, r.id)];
          endpoints := Put(endpoints, r.id, Remove(range, i));
          endpoints := Put(endpoints, r.id, Range(endpoints, r.id) + [r]);
          calls := calls + [FoundCall(r)];
          assert calls == old(calls) + [Lost(range[i].service, r.id), FoundCall(r)];
        }
        return;
      }
      endpoints := Put(endpoints, r.id, range + [r]);
      if range == [] {
        calls := calls + [FoundCall(r)];
      }
    }

    method OnEndpointLost(r: Record)
      modifies this
      ensures Value() == OnLost(old(Value()), r)
    {
      var range := Range(endpoints, r.id);
      for i := 0 to |range|
        invariant Value() == old(Value())
        invariant forall j :: 0 <= j < i ==> range[j].medium != r.medium
      {
        if range[i].medium == r.medium {
          assert i == FirstOver(range, r.medium);
          if |range| - 1 == 0 {
            calls := calls + [Lost(r.service, r.id)];
          }
          endpoints := Put(endpoints, r.id, Remove(range, i));
          return;
        }
      }
    }

    method AppendRemoteBluetoothMacAddressEndpoint(id: Id, allowed: bool, deviceIsValid: bool) returns (appended: bool)
      modifies this
      ensures Value() == AppendBluetooth(old(Value()), id, allowed, deviceIsValid)
      ensures appended <==> Value() != old(Value())
    {
      var range := Range(endpoints, id);
      if !allowed || range == [] {
        return false;
      }
      for i := 0 to |range|
        invariant Value() == old(Value())
        invariant forall j :: 0 <= j < i ==> range[j].medium != BLUETOOTH
      {
        if range[i].medium == BLUETOOTH {
          return false;
        }
      }
      if !deviceIsValid {
        return false;
      }
      endpoints := Put(endpoints, id, range + [Record(id, range[0].info, range[0].service, BLUETOOTH, Unconnectable)]);
      assert |Range(endpoints, id)| == |range| + 1;
      return true;
    }

    method AppendWebRtcEndpoint(id: Id, allowed: bool) returns (appended: bool)
      modifies this
      ensures Value() == AppendWebRtc(old(Value()), id, allowed)
      ensures appended <==> Value() != old(Value())
    {
      var range := Range(endpoints, id);
      if !allowed || range == [] {
        return false;
      }
      var shouldConnect := false;
      for i := 0 to |range|
        invariant Value() == old(Value()) && !shouldConnect
        invariant forall j :: 0 <= j < i ==> range[j].webRtc == Unconnectable
      {
        if range[i].webRtc != Unconnectable {
          shouldConnect := true;
          break;
        }
      }
      if !shouldConnect {
        return false;
      }
      endpoints := Put(endpoints, id, range + [Record(id, range[0].info, range[0].service, WEB_RTC, Connectable)]);
      assert |Range(endpoints, id)| == |range| + 1;
      return true;
    }
  }

  // ---------------------------------------------------------------- runs

  datatype Event =
    | Restart
    | OnEndpointFound(record: Record)
    | OnEndpointLost(record: Record)
    | RequestWithBluetooth(id: Id, allowed: bool, deviceIsValid: bool)
    | RequestWithWebRtc(id: Id, allowed: bool)

  function Next(ix: Index, ev: Event): Index {
    match ev
    case Restart => Init()
    case OnEndpointFound(r) => OnFound(ix, r)
    case OnEndpointLost(r) => OnLost(ix, r)
    case RequestWithBluetooth(id, allowed, valid) => AppendBluetooth(ix, id, allowed, valid)
    case RequestWithWebRtc(id, allowed) => AppendWebRtc(ix, id, allowed)
  }

  function Run(events: seq<Event>): Index {
    if events == [] then Init() else Next(Run(events[..|events| - 1]), events[|events| - 1])
  }

  /** The calls about one id. */
  function About(calls: seq<Call>, id: Id): seq<Call> {
    if calls == [] then []
    else
      var last := calls[|calls| - 1];
      About(calls[..|calls| - 1], id) + if last.id == id then [last] else []
  }

  lemma AboutAppend(calls: seq<Call>, call: Call, id: Id)
    ensures About(calls + [call], id) == About(calls, id) + if call.id == id then [call] else []
  {
    assert (calls + [call])[..|calls|] == calls;
  }

  /** Found, lost, found, lost, ... */
  ghost predicate Alternates(calls: seq<Call>) {
    forall k :: 0 <= k < |calls| ==> (calls[k].Found? <==> k % 2 == 0)
  }

  /** The last call said that the id is there. */
  predicate Visible(calls: seq<Call>) {
    |calls| % 2 == 1
  }

  /** What the client was told about an id is right. */
  ghost predicate Told(ix: Index, id: Id) {
    Right(ix.calls, id, Range(ix.endpoints, id) != [])
  }

  ghost predicate Right(calls: seq<Call>, id: Id, present: bool) {
    Alternates(About(calls, id)) && (Visible(About(calls, id)) <==> present)
  }

  lemma AlternatesAppend(calls: seq<Call>, call: Call)
    requires Alternates(calls) && (call.Found? <==> !Visible(calls))
    ensures Alternates(calls + [call]) && (Visible(calls + [call]) <==> call.Found?)
  {
  }

  /** One more call keeps it right, if it tells of a change. */
  lemma RightAppend(calls: seq<Call>, call: Call, id: Id, present: bool)
    requires Right(calls, id, present) && (call.id == id ==> present == call.Lost?)
    ensures Right(calls + [call], id, if call.id == id then call.Found? else present)
  {
    AboutAppend(calls, call, id);
    if call.id == id {
      AlternatesAppend(About(calls, id), call);
    } else {
      assert About(calls + [call], id) == About(calls, id);
    }
  }

  lemma RangeOfPut(endpoints: map<Id, seq<Record>>, id: Id, range: seq<Record>, other: Id)
    ensures Range(Put(endpoints, id, range), other) == if other == id then range else Range(endpoints, other)
  {
  }

  lemma ChangedTold(ix: Index, r: Record, k: nat, id: Id)
    requires Told(ix, id) && k < |Range(ix.endpoints, r.id)|
    ensures var range := Range(ix.endpoints, r.id);
            Told(Index(Put(ix.endpoints, r.id, Remove(range, k) + [r]), ix.calls + [Lost(range[k].service, r.id), FoundCall(r)]), id)
  {
    var range := Range(ix.endpoints, r.id);
    var present := Range(ix.endpoints, id) != [];
    var lost := Lost(range[k].service, r.id);
    RangeOfPut(ix.endpoints, r.id, Remove(range, k) + [r], id);
    RightAppend(ix.calls, lost, id, present);
    RightAppend(ix.calls + [lost], FoundCall(r), id, r.id != id && present);
    assert ix.calls + [lost] + [FoundCall(r)] == ix.calls + [lost, FoundCall(r)];
  }

  lemma AddedTold(ix: Index, r: Record, id: Id)
    requires Told(ix, id)
    ensures var range := Range(ix.endpoints, r.id);
            Told(Index(Put(ix.endpoints, r.id, range + [r]), if range == [] then ix.calls + [FoundCall(r)] else ix.calls), id)
  {
    var range := Range(ix.endpoints, r.id);
    RangeOfPut(ix.endpoints, r.id, range + [r], id);
    if range == [] {
      RightAppend(ix.calls, FoundCall(r), id, Range(ix.endpoints, id) != []);
    }
  }

  lemma FoundTold(ix: Index, r: Record, id: Id)
    requires Told(ix, id)
    ensures Told(OnFound(ix, r), id)
  {
    var range := Range(ix.endpoints, r.id);
    var k := FirstOver(range, r.medium);
    if k == |range| {
      AddedTold(ix, r, id);
    } else if range[k].info != r.info {
      ChangedTold(ix, r, k, id);
    }
  }

  lemma LostTold(ix: Index, r: Record, id: Id)
    requires Told(ix, id)
    ensures Told(OnLost(ix, r), id)
  {
    var range := Range(ix.endpoints, r.id);
    var k := FirstOver(range, r.medium);
    if k < |range| {
      RangeOfPut(ix.endpoints, r.id, Remove(range, k), id);
      assert |Remove(range, k)| == |range| - 1;
      if |range| == 1 {
        RightAppend(ix.calls, Lost(r.service, r.id), id, Range(ix.endpoints, id) != []);
      }
    }
  }

  /** Over any run of found, lost, changed, appended and restarted: the calls about each
      id in this session alternate, starting with found, and the id is reported visible
      exactly when it has a record. */
  lemma {:induction false} CallbacksAgree(events: seq<Event>, id: Id)
    ensures Told(Run(events), id)
  {
    if events != [] {
      var before := Run(events[..|events| - 1]);
      CallbacksAgree(events[..|events| - 1], id);
      match events[|events| - 1]
      case OnEndpointFound(r) => FoundTold(before, r, id);
      case OnEndpointLost(r) => LostTold(before, r, id);
      case _ =>
    }
  }

  /** The ids last reported as found. */
  function Listed(calls: seq<Call>): set<Id> {
    if calls == [] then {}
    else
      var last := calls[|calls| - 1];
      if last.Found? then Listed(calls[..|calls| - 1]) + {last.id} else Listed(calls[..|calls| - 1]) - {last.id}
  }

  lemma {:induction false} ListedIsVisible(calls: seq<Call>, id: Id)
    requires Alternates(About(calls, id))
    ensures id in Listed(calls) <==> Visible(About(calls, id))
  {
    if calls != [] {
      var before, last := calls[..|calls| - 1], calls[|calls| - 1];
      assert calls == before + [last];
      AboutAppend(before, last, id);
      assert forall k :: 0 <= k < |About(before, id)| ==> About(calls, id)[k] == About(before, id)[k];
      ListedIsVisible(before, id);
      if last.id == id {
        assert About(calls, id)[|About(before, id)|] == last;
      }
    }
  }

  lemma {:induction false} AboutPrefix(calls: seq<Call>, n: nat, id: Id)
    requires n <= |calls|
    ensures About(calls[..n], id) <= About(calls, id)
    decreases |calls|
  {
    if n < |calls| {
      AboutPrefix(calls[..|calls| - 1], n, id);
      assert calls[..|calls| - 1][..n] == calls[..n];
    } else {
      assert calls[..n] == calls;
    }
  }

  lemma AlternatesPrefix(some: seq<Call>, calls: seq<Call>)
    requires some <= calls && Alternates(calls)
    ensures Alternates(some)
  {
    assert forall k :: 0 <= k < |some| ==> some[k] == calls[k];
  }

  /** Every call is news: found only for an id not listed, lost only for one that is. */
  ghost predicate News(calls: seq<Call>) {
    forall k :: 0 <= k < |calls| ==> (calls[k].Found? <==> calls[k].id !in Listed(calls[..k]))
  }

  lemma EveryCallIsNews(events: seq<Event>)
    ensures News(Run(events).calls)
    ensures forall id :: id in Listed(Run(events).calls) <==> Range(Run(events).endpoints, id) != []
  {
    var ix := Run(events);
    forall id ensures id in Listed(ix.calls) <==> Range(ix.endpoints, id) != [] {
      CallbacksAgree(events, id);
      ListedIsVisible(ix.calls, id);
    }
    forall k | 0 <= k < |ix.calls| ensures ix.calls[k].Found? <==> ix.calls[k].id !in Listed(ix.calls[..k]) {
      var call := ix.calls[k];
      var before := ix.calls[..k];
      CallbacksAgree(events, call.id);
      AboutPrefix(ix.calls, k + 1, call.id);
      assert ix.calls[..k + 1] == before + [call];
      AboutAppend(before, call, call.id);
      AlternatesPrefix(About(before, call.id) + [call], About(ix.calls, call.id));
      AlternatesPrefix(About(before, call.id), About(ix.calls, call.id));
      ListedIsVisible(before, call.id);
      assert (About(before, call.id) + [call])[|About(before, call.id)|] == call;
    }
  }

  // ---------------------------------------------------------------- the client

  /** The client proxy: the service it discovers, its own list of ids, and the calls it
      ignored since it started. */
  datatype Client = Client(discovering: Option<string>, listed: set<Id>, ignored: seq<Call>)

  function Hear(c: Client, call: Call): Client {
    if c.discovering != Some(call.service) || (call.Found? <==> call.id in c.listed) then c.(ignored := c.ignored + [call])
    else if call.Found? then c.(listed := c.listed + {call.id})
    else c.(listed := c.listed - {call.id})
  }

  function HearAll(c: Client, calls: seq<Call>): Client {
    if calls == [] then c else Hear(HearAll(c, calls[..|calls| - 1]), calls[|calls| - 1])
  }

  datatype Session = Session(ix: Index, client: Client)

  datatype Action = Start(service: string) | Stop | On(ev: Event)

  /** Only a client that is not discovering may start; the handler alone never restarts. */
  predicate Permitted(s: Session, a: Action) {
    match a
    case Start(_) => s.client.discovering.None?
    case Stop => true
    case On(ev) => !ev.Restart?
  }

  /** Starting empties the index and keeps the client's list; stopping empties the client's
      list and keeps the index. */
  function Act(s: Session, a: Action): Session {
    match a
    case Start(service) => Session(Init(), s.client.(discovering := Some(service), ignored := []))
    case Stop => if s.client.discovering.None? then s else s.(client := s.client.(discovering := None, listed := {}))
    case On(ev) =>
      var next := Next(s.ix, ev);
      Session(next, if s.ix.calls <= next.calls then HearAll(s.client, next.calls[|s.ix.calls|..]) else s.client)
  }

  ghost predicate IsSession(sessions: seq<Session>, actions: seq<Action>) {
    && |sessions| == |actions| + 1
    && sessions[0] == Session(Init(), Client(None, {}, []))
    && forall i :: 0 <= i < |actions| ==> Permitted(sessions[i], actions[i]) && sessions[i + 1] == Act(sessions[i], actions[i])
  }

  /** Calls are only ever added. */
  lemma CallsGrow(ix: Index, ev: Event)
    requires !ev.Restart?
    ensures ix.calls <= Next(ix, ev).calls
  {
  }

  lemma {:induction false} HearMore(c: Client, before: seq<Call>, after: seq<Call>)
    ensures HearAll(c, before + after) == HearAll(HearAll(c, before), after)
  {
    if after == [] {
      assert before + after == before;
    } else {
      var n := |after| - 1;
      assert (before + after)[..|before| + n] == before + after[..n];
      HearMore(c, before, after[..n]);
    }
  }

  lemma {:induction false} KeepsDiscovering(c: Client, calls: seq<Call>)
    ensures HearAll(c, calls).discovering == c.discovering
    ensures c.discovering.None? ==> HearAll(c, calls).listed == c.listed
  {
    if calls != [] {
      KeepsDiscovering(c, calls[..|calls| - 1]);
    }
  }

  /** The events of the handler since the last start. */
  function Since(actions: seq<Action>): seq<Event> {
    if actions == [] then []
    else
      var before := Since(actions[..|actions| - 1]);
      match actions[|actions| - 1]
      case Start(_) => []
      case Stop => before
      case On(ev) => before + [ev]
  }

  lemma RunMore(events: seq<Event>, ev: Event)
    ensures Run(events + [ev]) == Next(Run(events), ev)
  {
    assert (events + [ev])[..|events|] == events;
  }

  /** The index is that of a run; the client has heard all its calls, if it is discovering,
      and else has an empty list. */
  lemma {:induction false} ClientHeard(sessions: seq<Session>, actions: seq<Action>, i: nat)
    requires IsSession(sessions, actions) && i < |sessions|
    ensures var s := sessions[i];
            && s.ix == Run(Since(actions[..i]))
            && (s.client.discovering.None? ==> s.client.listed == {})
            && (s.client.discovering.Some? ==> s.client == HearAll(Client(s.client.discovering, {}, []), s.ix.calls))
  {
    if i > 0 {
      ClientHeard(sessions, actions, i - 1);
      var s, a, t := sessions[i - 1], actions[i - 1], sessions[i];
      assert Permitted(s, a) && t == Act(s, a);
      assert actions[..i][..i - 1] == actions[..i - 1];
      if a.On? {
        RunMore(Since(actions[..i - 1]), a.ev);
        CallsGrow(s.ix, a.ev);
        var more := t.ix.calls[|s.ix.calls|..];
        KeepsDiscovering(s.client, more);
        assert t.ix.calls == s.ix.calls + more;
        HearMore(Client(s.client.discovering, {}, []), s.ix.calls, more);
      }
    }
  }

  ghost predicate AllName(calls: seq<Call>, service: string) {
    forall k :: 0 <= k < |calls| ==> calls[k].service == service
  }

  lemma AllNameAppend(calls: seq<Call>, call: Call, service: string)
    ensures AllName(calls + [call], service) <==> AllName(calls, service) && call.service == service
  {
    var more := calls + [call];
    assert forall k :: 0 <= k < |calls| ==> more[k] == calls[k];
    assert more[|calls|] == call;
  }

  lemma ListedAppend(calls: seq<Call>, call: Call)
    ensures Listed(calls + [call]) == if call.Found? then Listed(calls) + {call.id} else Listed(calls) - {call.id}
  {
    assert (calls + [call])[..|calls|] == calls;
  }

  /** Hearing one more piece of news. */
  lemma HearNews(c: Client, calls: seq<Call>, call: Call, service: string)
    requires call.Found? <==> call.id !in Listed(calls)
    requires c.discovering == Some(service)
    requires (c.ignored == [] <==> AllName(calls, service)) && (c.ignored == [] ==> c.listed == Listed(calls))
    ensures Hear(c, call).ignored == [] <==> AllName(calls + [call], service)
    ensures Hear(c, call).ignored == [] ==> Hear(c, call).listed == Listed(calls + [call])
  {
    AllNameAppend(calls, call, service);
    ListedAppend(calls, call);
  }

  lemma NewsBefore(before: seq<Call>, last: Call)
    requires News(before + [last])
    ensures News(before) && (last.Found? <==> last.id !in Listed(before))
  {
    var calls := before + [last];
    assert calls[..|before|] == before && calls[|before|] == last;
    forall k | 0 <= k < |before| ensures before[k].Found? <==> before[k].id !in Listed(before[..k]) {
      assert calls[k] == before[k] && calls[..k] == before[..k];
    }
  }

  /** A client that hears only news ignores nothing exactly if all of it is about the service
      it discovers; and then its list is right. */
  lemma {:induction false} NewsIsHeard(service: string, calls: seq<Call>)
    requires News(calls)
    ensures var c := HearAll(Client(Some(service), {}, []), calls);
            (c.ignored == [] <==> AllName(calls, service)) && (c.ignored == [] ==> c.listed == Listed(calls))
  {
    if calls != [] {
      var before, last := calls[..|calls| - 1], calls[|calls| - 1];
      assert calls == before + [last];
      NewsBefore(before, last);
      NewsIsHeard(service, before);
      KeepsDiscovering(Client(Some(service), {}, []), before);
      HearNews(HearAll(Client(Some(service), {}, []), before), before, last, service);
    }
  }

  /** In every run of starting, stopping and the handler's events: a client that discovers a
      service ignored no call since it started exactly if all of them named that service; and
      then its list is exactly the ids with a record. A client that is not discovering
      has an empty list. */
  lemma NoCallIsIgnored(sessions: seq<Session>, actions: seq<Action>, i: nat)
    requires IsSession(sessions, actions) && i < |sessions|
    ensures var s := sessions[i];
            && (s.client.discovering.None? ==> s.client.listed == {})
            && (s.client.discovering.Some? ==>
                  (s.client.ignored == [] <==> AllName(s.ix.calls, s.client.discovering.value)))
            && (s.client.discovering.Some? && s.client.ignored == [] ==>
                  forall id :: id in s.client.listed <==> Range(s.ix.endpoints, id) != [])
  {
    ClientHeard(sessions, actions, i);
    EveryCallIsNews(Since(actions[..i]));
    if sessions[i].client.discovering.Some? {
      NewsIsHeard(sessions[i].client.discovering.value, sessions[i].ix.calls);
    }
  }

  // ---------------------------------------------------------------- uniqueness

  /** At most one record of an id per medium. */
  ghost predicate Unique(range: seq<Record>, medium: Medium) {
    forall i, j :: 0 <= i < j < |range| ==> !(range[i].medium == medium && range[j].medium == medium)
  }

  ghost predicate Own(range: seq<Record>, id: Id) {
    forall i :: 0 <= i < |range| ==> range[i].id == id
  }

  lemma RemovedOwn(range: seq<Record>, k: nat, id: Id)
    requires Own(range, id) && k < |range|
    ensures Own(Remove(range, k), id)
  {
  }

  lemma FoundOwn(ix: Index, r: Record, id: Id)
    requires Own(Range(ix.endpoints, id), id)
    ensures Own(Range(OnFound(ix, r).endpoints, id), id)
  {
    var range := Range(ix.endpoints, r.id);
    var k := FirstOver(range, r.medium);
    if r.id == id && k < |range| {
      RemovedOwn(range, k, id);
    }
  }

  lemma LostOwn(ix: Index, r: Record, id: Id)
    requires Own(Range(ix.endpoints, id), id)
    ensures Own(Range(OnLost(ix, r).endpoints, id), id)
  {
    var range := Range(ix.endpoints, r.id);
    var k := FirstOver(range, r.medium);
    if r.id == id && k < |range| {
      RemovedOwn(range, k, id);
    }
  }

  lemma StepOwn(ix: Index, ev: Event, id: Id)
    requires Own(Range(ix.endpoints, id), id)
    ensures Own(Range(Next(ix, ev).endpoints, id), id)
  {
    match ev
    case OnEndpointFound(r) => FoundOwn(ix, r, id);
    case OnEndpointLost(r) => LostOwn(ix, r, id);
    case _ =>
  }

  /** Every record is kept under its own id. */
  lemma {:induction false} FiledUnderItsId(events: seq<Event>, id: Id)
    ensures Own(Range(Run(events).endpoints, id), id)
  {
    if events != [] {
      FiledUnderItsId(events[..|events| - 1], id);
      StepOwn(Run(events[..|events| - 1]), events[|events| - 1], id);
    }
  }

  lemma AddedUnique(range: seq<Record>, r: Record, medium: Medium)
    requires Unique(range, medium)
    ensures Unique(range + [r], medium) <==> r.medium != medium || FirstOver(range, medium) == |range|
  {
    var k := FirstOver(range, medium);
    var more := range + [r];
    if r.medium == medium && k < |range| {
      assert more[k].medium == medium && more[|range|].medium == medium;
    }
  }

  lemma RemovedUnique(range: seq<Record>, k: nat, medium: Medium)
    requires Unique(range, medium) && k < |range|
    ensures Unique(Remove(range, k), medium)
    ensures range[k].medium == medium ==> FirstOver(Remove(range, k), medium) == |range| - 1
  {
    var less := Remove(range, k);
    assert forall i :: 0 <= i < |less| ==> less[i] == if i < k then range[i] else range[i + 1];
  }

  lemma FoundUnique(ix: Index, r: Record, id: Id, medium: Medium)
    requires Unique(Range(ix.endpoints, id), medium)
    ensures Unique(Range(OnFound(ix, r).endpoints, id), medium)
  {
    var range := Range(ix.endpoints, r.id);
    var k := FirstOver(range, r.medium);
    if r.id == id {
      if k == |range| {
        AddedUnique(range, r, medium);
      } else {
        RemovedUnique(range, k, medium);
        AddedUnique(Remove(range, k), r, medium);
      }
    }
  }

  lemma LostUnique(ix: Index, r: Record, id: Id, medium: Medium)
    requires Unique(Range(ix.endpoints, id), medium)
    ensures Unique(Range(OnLost(ix, r).endpoints, id), medium)
  {
    var range := Range(ix.endpoints, r.id);
    var k := FirstOver(range, r.medium);
    if r.id == id && k < |range| {
      RemovedUnique(range, k, medium);
    }
  }

  /** An append of a WEB_RTC record finds one there. */
  predicate Repeats(ix: Index, ev: Event, id: Id) {
    var range := Range(ix.endpoints, id);
    ev.RequestWithWebRtc? && ev.id == id && ev.allowed && SomeConnectable(range) && FirstOver(range, WEB_RTC) < |range|
  }

  lemma AppendUnique(ix: Index, ev: Event, id: Id, medium: Medium)
    requires Unique(Range(ix.endpoints, id), medium) && (ev.RequestWithBluetooth? || ev.RequestWithWebRtc?)
    ensures Unique(Range(Next(ix, ev).endpoints, id), medium) <==> !(medium == WEB_RTC && Repeats(ix, ev, id))
  {
    var range := Range(ix.endpoints, id);
    if ev.id == id && range != [] {
      AddedUnique(range, Record(id, range[0].info, range[0].service, BLUETOOTH, Unconnectable), medium);
      AddedUnique(range, Record(id, range[0].info, range[0].service, WEB_RTC, Connectable), medium);
    }
  }

  /** What a step does to uniqueness: only appending WEB_RTC can break it, and it does
      exactly when a WEB_RTC record is there already. */
  lemma StepUnique(ix: Index, ev: Event, id: Id, medium: Medium)
    requires Unique(Range(ix.endpoints, id), medium)
    ensures Unique(Range(Next(ix, ev).endpoints, id), medium) <==> !(medium == WEB_RTC && Repeats(ix, ev, id))
  {
    match ev
    case Restart =>
    case OnEndpointFound(r) => FoundUnique(ix, r, id, medium);
    case OnEndpointLost(r) => LostUnique(ix, r, id, medium);
    case RequestWithBluetooth(_, _, _) => AppendUnique(ix, ev, id, medium);
    case RequestWithWebRtc(_, _) => AppendUnique(ix, ev, id, medium);
  }

  /** Every index a run reaches has at most one record per id and medium, for every
      medium but WEB_RTC. */
  lemma {:induction false} OneRecordPerMedium(events: seq<Event>, id: Id, medium: Medium)
    requires medium != WEB_RTC
    ensures Unique(Range(Run(events).endpoints, id), medium)
  {
    if events != [] {
      var before := events[..|events| - 1];
      OneRecordPerMedium(before, id, medium);
      StepUnique(Run(before), events[|events| - 1], id, medium);
    }
  }

  /** An allowed append finds no WEB_RTC record there. */
  ghost predicate FreshAppend(events: seq<Event>, id: Id, n: nat)
    requires n < |events|
  {
    var range := Range(Run(events[..n]).endpoints, id);
    events[n].RequestWithWebRtc? && events[n].id == id && events[n].allowed ==>
      !SomeConnectable(range) || FirstOver(range, WEB_RTC) == |range|
  }

  ghost predicate UniqueAt(events: seq<Event>, id: Id, n: nat)
    requires n <= |events|
  {
    Unique(Range(Run(events[..n]).endpoints, id), WEB_RTC)
  }

  lemma UniqueNext(events: seq<Event>, id: Id, n: nat)
    requires n < |events| && UniqueAt(events, id, n)
    ensures UniqueAt(events, id, n + 1) <==> FreshAppend(events, id, n)
  {
    assert events[..n + 1][..n] == events[..n];
    StepUnique(Run(events[..n]), events[n], id, WEB_RTC);
  }

  ghost predicate AlwaysUnique(events: seq<Event>, id: Id, m: nat)
    requires m <= |events|
  {
    forall n :: 0 <= n <= m ==> UniqueAt(events, id, n)
  }

  ghost predicate AlwaysFresh(events: seq<Event>, id: Id, m: nat)
    requires m <= |events|
  {
    forall n :: 0 <= n < m ==> FreshAppend(events, id, n)
  }

  /** WEB_RTC is no exception as long as no append finds a WEB_RTC record there, and
      only that long. */
  lemma {:induction false} OneWebRtcRecord(events: seq<Event>, id: Id, m: nat)
    requires m <= |events|
    ensures AlwaysUnique(events, id, m) <==> AlwaysFresh(events, id, m)
  {
    if m == 0 {
      assert UniqueAt(events, id, 0);
    } else {
      OneWebRtcRecord(events, id, m - 1);
      if AlwaysUnique(events, id, m - 1) {
        assert UniqueAt(events, id, m - 1);
        UniqueNext(events, id, m - 1);
      }
    }
  }

  /** A second request that may use WEB_RTC always leaves two WEB_RTC records: the first
      one made the endpoint connectable. */
  lemma SecondAppendDuplicates(ix: Index, id: Id)
    requires SomeConnectable(Range(ix.endpoints, id))
    ensures !Unique(Range(AppendWebRtc(AppendWebRtc(ix, id, true), id, true).endpoints, id), WEB_RTC)
  {
    var once := AppendWebRtc(ix, id, true);
    var range := Range(once.endpoints, id);
    var last := |range| - 1;
    assert range[last].medium == WEB_RTC && range[last].webRtc == Connectable;
    var twice := Range(AppendWebRtc(once, id, true).endpoints, id);
    assert twice[last].medium == WEB_RTC && twice[last + 1].medium == WEB_RTC;
  }

  // ---------------------------------------------------------------- which records

  /** The records of a range over one medium, in order. */
  function Over(range: seq<Record>, medium: Medium): seq<Record> {
    if range == [] then []
    else (if range[0].medium == medium then [range[0]] else []) + Over(range[1..], medium)
  }

  lemma Associative(x: seq<Record>, y: seq<Record>, z: seq<Record>)
    ensures x + (y + z) == x + y + z
  {
  }

  lemma OverHead(r: Record, rest: seq<Record>, medium: Medium)
    ensures Over([r] + rest, medium) == (if r.medium == medium then [r] else []) + Over(rest, medium)
  {
    assert ([r] + rest)[1..] == rest;
  }

  lemma {:induction false} OverJoined(a: seq<Record>, b: seq<Record>, medium: Medium)
    ensures Over(a + b, medium) == Over(a, medium) + Over(b, medium)
    decreases |a|
  {
    if a == [] {
      assert a + b == b;
    } else {
      var r, rest := a[0], a[1..];
      assert a == [r] + rest && a + b == [r] + (rest + b);
      OverJoined(rest, b, medium);
      OverHead(r, rest, medium);
      OverHead(r, rest + b, medium);
      Associative(if r.medium == medium then [r] else [], Over(rest, medium), Over(b, medium));
    }
  }

  lemma {:induction false} OverNone(range: seq<Record>, medium: Medium)
    requires forall i :: 0 <= i < |range| ==> range[i].medium != medium
    ensures Over(range, medium) == []
  {
    if range != [] {
      OverNone(range[1..], medium);
    }
  }

  /** The first record over a medium is where the search finds it. */
  lemma {:induction false} OverFirst(range: seq<Record>, medium: Medium)
    ensures var k := FirstOver(range, medium);
            if k == |range| then Over(range, medium) == []
            else Over(range, medium) == [range[k]] + Over(range[k + 1..], medium)
    decreases |range|
  {
    if range != [] && range[0].medium != medium {
      var rest := range[1..];
      var k := FirstOver(rest, medium);
      OverFirst(rest, medium);
      assert Over(range, medium) == Over(rest, medium);
      if k < |rest| {
        assert rest[k + 1..] == range[k + 2..];
      }
    }
  }

  /** Taking the first record over one medium away leaves the others. */
  lemma OverRemoved(range: seq<Record>, medium: Medium, other: Medium)
    requires FirstOver(range, medium) < |range|
    ensures var less := Remove(range, FirstOver(range, medium));
            Over(range, medium) != [] && Over(less, other) == if other == medium then Over(range, medium)[1..] else Over(range, other)
  {
    var k := FirstOver(range, medium);
    OverFirst(range, medium);
    OverNone(range[..k], medium);
    OverJoined(range[..k], range[k + 1..], other);
    OverJoined(range[..k], range[k..], other);
    assert range == range[..k] + range[k..] && range[k..][1..] == range[k + 1..];
  }

  /** A loss takes the first record over the lost medium, of that id, and no other; the client
      is told exactly if that was the id's only record. */
  lemma LostExactly(ix: Index, r: Record, id: Id, medium: Medium)
    ensures var was, now := Range(ix.endpoints, id), Range(OnLost(ix, r).endpoints, id);
            Over(now, medium) == if id == r.id && medium == r.medium && Over(was, medium) != [] then Over(was, medium)[1..] else Over(was, medium)
    ensures var was := Range(ix.endpoints, r.id);
            OnLost(ix, r).calls == ix.calls + if |was| == 1 && was[0].medium == r.medium then [Lost(r.service, r.id)] else []
  {
    var was := Range(ix.endpoints, r.id);
    OverFirst(was, r.medium);
    if FirstOver(was, r.medium) < |was| {
      OverRemoved(was, r.medium, medium);
      RangeOfPut(ix.endpoints, r.id, Remove(was, FirstOver(was, r.medium)), id);
    }
  }

  /** A find leaves one record with its info over its medium in place of one with another info,
      or adds it if there is none, and touches no other; the client is told of the new info,
      after the loss of the old one, or of an id it did not know. */
  lemma FoundExactly(ix: Index, r: Record, id: Id, medium: Medium)
    ensures var was, now := Range(ix.endpoints, id), Range(OnFound(ix, r).endpoints, id);
            Over(now, medium) ==
              if id != r.id || medium != r.medium then Over(was, medium)
              else if Over(was, medium) == [] then [r]
              else if Over(was, medium)[0].info != r.info then Over(was, medium)[1..] + [r]
              else Over(was, medium)
    ensures var was := Range(ix.endpoints, r.id);
            OnFound(ix, r).calls == ix.calls +
              if was == [] then [Found(r.service, r.id, r.info, r.medium)]
              else if Over(was, r.medium) != [] && Over(was, r.medium)[0].info != r.info then
                [Lost(Over(was, r.medium)[0].service, r.id), Found(r.service, r.id, r.info, r.medium)]
              else []
  {
    var was := Range(ix.endpoints, r.id);
    var k := FirstOver(was, r.medium);
    OverFirst(was, r.medium);
    if k == |was| {
      OverJoined(was, [r], medium);
      RangeOfPut(ix.endpoints, r.id, was + [r], id);
      OverOne(r, medium);
    } else if was[k].info != r.info {
      OverRemoved(was, r.medium, medium);
      OverJoined(Remove(was, k), [r], medium);
      RangeOfPut(ix.endpoints, r.id, Remove(was, k) + [r], id);
      OverOne(r, medium);
    }
  }

  lemma OverOne(r: Record, medium: Medium)
    ensures Over([r], medium) == if r.medium == medium then [r] else []
  {
    assert [r][1..] == [];
  }

  /** Appending over Bluetooth adds one record, with the first record's info and service, to a
      known id that has none there, if it is allowed and the device is valid. */
  lemma BluetoothAppendedExactly(ix: Index, d: Id, allowed: bool, valid: bool, id: Id, medium: Medium)
    ensures var was, now := Range(ix.endpoints, id), Range(AppendBluetooth(ix, d, allowed, valid).endpoints, id);
            Over(now, medium) == Over(was, medium) +
              if was != [] && d == id && allowed && valid && medium == BLUETOOTH && Over(was, BLUETOOTH) == []
              then [Record(id, was[0].info, was[0].service, BLUETOOTH, Unconnectable)] else []
    ensures AppendBluetooth(ix, d, allowed, valid).calls == ix.calls
  {
    var was := Range(ix.endpoints, id);
    OverFirst(was, BLUETOOTH);
    if d == id && was != [] {
      Appended(ix, was, Record(id, was[0].info, was[0].service, BLUETOOTH, Unconnectable), id, medium);
    }
  }

  /** Appending over WEB_RTC adds one to a known id, if it is allowed and some record says that
      it can connect. */
  lemma WebRtcAppendedExactly(ix: Index, d: Id, allowed: bool, id: Id, medium: Medium)
    ensures var was, now := Range(ix.endpoints, id), Range(AppendWebRtc(ix, d, allowed).endpoints, id);
            Over(now, medium) == Over(was, medium) +
              if d == id && allowed && medium == WEB_RTC && (exists i :: 0 <= i < |was| && was[i].webRtc != Unconnectable)
              then [Record(id, was[0].info, was[0].service, WEB_RTC, Connectable)] else []
    ensures AppendWebRtc(ix, d, allowed).calls == ix.calls
  {
    var was := Range(ix.endpoints, id);
    if d == id && was != [] {
      Appended(ix, was, Record(id, was[0].info, was[0].service, WEB_RTC, Connectable), id, medium);
    }
  }

  lemma Appended(ix: Index, was: seq<Record>, r: Record, id: Id, medium: Medium)
    ensures var now := Range(Put(ix.endpoints, id, was + [r]), id);
            now == was + [r] && Over(now, medium) == Over(was, medium) + if r.medium == medium then [r] else []
  {
    OverJoined(was, [r], medium);
    OverOne(r, medium);
    RangeOfPut(ix.endpoints, id, was + [r], id);
  }

  /** What was last heard of an id over a medium since the last start: found, or appended, and
      not lost. An append counts if it is allowed, of a valid device, for a known id. */
  ghost predicate LastFound(events: seq<Event>, id: Id, medium: Medium) {
    if events == [] then false
    else
      var before := events[..|events| - 1];
      Heard(Run(before), events[|events| - 1], id, medium, LastFound(before, id, medium))
  }

  /** The last word, one event later. */
  ghost predicate Heard(ix: Index, ev: Event, id: Id, medium: Medium, before: bool) {
    match ev
    case Restart => false
    case OnEndpointFound(r) => (r.id == id && r.medium == medium) || before
    case OnEndpointLost(r) => !(r.id == id && r.medium == medium) && before
    case RequestWithBluetooth(d, allowed, valid) =>
      (d == id && medium == BLUETOOTH && allowed && valid && Range(ix.endpoints, id) != []) || before
    case RequestWithWebRtc(_, _) => before
  }

  lemma {:induction false} OverUnique(range: seq<Record>, medium: Medium)
    requires Unique(range, medium)
    ensures |Over(range, medium)| <= 1
  {
    if range != [] {
      assert forall i :: 0 <= i < |range[1..]| ==> range[1..][i] == range[i + 1];
      if range[0].medium == medium {
        assert forall j :: 0 < j < |range| ==> range[j].medium != medium;
        OverNone(range[1..], medium);
      } else {
        assert Unique(range[1..], medium);
        OverUnique(range[1..], medium);
      }
    }
  }

  lemma HeardStep(ix: Index, ev: Event, id: Id, medium: Medium)
    requires medium != WEB_RTC && |Over(Range(ix.endpoints, id), medium)| <= 1
    ensures Over(Range(Next(ix, ev).endpoints, id), medium) != [] <==> Heard(ix, ev, id, medium, Over(Range(ix.endpoints, id), medium) != [])
  {
    match ev
    case Restart =>
    case OnEndpointFound(r) => FoundExactly(ix, r, id, medium);
    case OnEndpointLost(r) => LostExactly(ix, r, id, medium);
    case RequestWithBluetooth(d, allowed, valid) => BluetoothAppendedExactly(ix, d, allowed, valid, id, medium);
    case RequestWithWebRtc(d, allowed) => WebRtcAppendedExactly(ix, d, allowed, id, medium);
  }

  /** Over any run, for every medium but WEB_RTC: an id has a record over it exactly if what
      was last heard of it there was not a loss. */
  lemma {:induction false} RecordIsLastWord(events: seq<Event>, id: Id, medium: Medium)
    requires medium != WEB_RTC
    ensures Over(Range(Run(events).endpoints, id), medium) != [] <==> LastFound(events, id, medium)
  {
    if events != [] {
      var before := events[..|events| - 1];
      RecordIsLastWord(before, id, medium);
      OneRecordPerMedium(before, id, medium);
      OverUnique(Range(Run(before).endpoints, id), medium);
      HeardStep(Run(before), events[|events| - 1], id, medium);
    }
  }

  /** Over any run, the record over such a medium that a find leaves has the info found. */
  lemma FoundInfoIsKept(events: seq<Event>, r: Record)
    requires r.medium != WEB_RTC
    ensures var now := Range(Run(events + [OnEndpointFound(r)]).endpoints, r.id);
            |Over(now, r.medium)| == 1 && Over(now, r.medium)[0].info == r.info
  {
    RunMore(events, OnEndpointFound(r));
    OneRecordPerMedium(events, r.id, r.medium);
    OverUnique(Range(Run(events).endpoints, r.id), r.medium);
    FoundExactly(Run(events), r, r.id, r.medium);
  }
}
