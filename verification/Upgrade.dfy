/**
  Which endpoints a device is upgrading, per service, and when a medium is told that it
  may revert to its former state.
*/
module Upgrade {
  const POSTFIX := "_UPGRADE"

  predicate EndsWith(s: string, end: string) {
    |end| <= |s| && s[|s| - |end|..] == end
  }

  predicate IsUpgradeServiceId(service: string) {
    service != "" && EndsWith(service, POSTFIX)
  }

  function Wrap(service: string): (r: string)
    ensures r == "" <==> service == ""
    ensures r == "" || IsUpgradeServiceId(r)
    ensures service <= r
  {
    if service == "" || IsUpgradeServiceId(service) then service else service + POSTFIX
  }

  /** The name of a service without the postfix is kept whole, in front of it; one that has it
      already, or is empty, is kept as it is. */
  lemma WrapKeepsTheName(service: string)
    ensures service == "" || IsUpgradeServiceId(service) ==> Wrap(service) == service
    ensures service != "" && !IsUpgradeServiceId(service) ==>
              service <= Wrap(service) && |Wrap(service)| == |service| + |POSTFIX| && EndsWith(Wrap(service), POSTFIX)
    ensures Wrap(Wrap(service)) == Wrap(service)
  {
  }

  /** Services with different names, none of them with the postfix, stay apart. */
  lemma WrapIsInjective(a: string, b: string)
    requires !IsUpgradeServiceId(a) && !IsUpgradeServiceId(b) && Wrap(a) == Wrap(b)
    ensures a == b
  {
    WrapKeepsTheName(a);
    WrapKeepsTheName(b);
    if a != "" {
      assert a == Wrap(a)[..|a|] && b == Wrap(b)[..|b|];
    }
  }

  /** What the bookkeeping means: the pairs of service and endpoint being upgraded, and the
      calls of the medium's hook so far. */
  datatype Ledger = Ledger(pairs: set<(string, string)>, hooks: seq<string>)

  datatype Event =
    | Initialize(service: string, endpoint: string, succeeds: bool)
    | RevertAll
    | Revert(service: string, endpoint: string)

  function After(pairs: set<(string, string)>, ev: Event): set<(string, string)> {
    match ev
    case Initialize(service, endpoint, succeeds) => if succeeds then pairs + {(Wrap(service), endpoint)} else pairs
    case RevertAll => {}
    case Revert(service, endpoint) => if IsUpgradeServiceId(service) then pairs - {(service, endpoint)} else pairs
  }

  ghost predicate Active(pairs: set<(string, string)>, service: string) {
    exists endpoint :: (service, endpoint) in pairs
  }

  /** A step: the pairs change as the event says, and the hook is called once for each
      service whose pairs went from some to none, and for no other. */
  ghost predicate Step(before: Ledger, ev: Event, after: Ledger) {
    && after.pairs == After(before.pairs, ev)
    && before.hooks <= after.hooks
    && (forall service :: Count(after.hooks[|before.hooks|..], service) ==
                            if Active(before.pairs, service) && !Active(after.pairs, service) then 1 else 0)
  }

  function Count(hooks: seq<string>, service: string): nat {
    multiset(hooks)[service]
  }

  class BaseBwuHandler {
    var active: map<string, set<string>>
    var hooks: seq<string>

    /** No service is kept without an endpoint. */
    ghost predicate Valid()
      reads this
    {
      forall s :: s in active ==> active[s] != {}
    }

    ghost function Value(): Ledger
      reads this
    {
      Ledger(Pairs(active), hooks)
    }

    constructor ()
      ensures Valid() && Value() == Ledger({}, [])
    {
      active, hooks := map[], [];
    }

    /** `succeeds`: the medium made a path available, in a frame that is not empty. */
    method InitializeUpgradedMediumForEndpoint(service: string, endpoint: string, succeeds: bool)
      requires Valid()
      modifies this
      ensures Valid() && Step(old(Value()), Initialize(service, endpoint, succeeds), Value())
    {
      var wrapped := Wrap(service);
      if succeeds {
        var endpoints := if wrapped in active then active[wrapped] else {};
        active := active[wrapped := endpoints + {endpoint}];
      }
    }

    /** Revert every service, in whatever order the map gives them. */
    method RevertInitiatorState()
      requires Valid()
      modifies this
      ensures Valid() && Step(old(Value()), RevertAll, Value())
    {
      var left := active.Keys;
      while left != {}
        invariant left <= active.Keys && active == old(active) && old(hooks) <= hooks
        invariant forall s :: Count(hooks[|old(hooks)|..], s) == if s in active && s !in left then 1 else 0
        decreases |left|
      {
        var s :| s in left;
        ghost var was := hooks[|old(hooks)|..];
        hooks := hooks + [s];
        assert hooks[|old(hooks)|..] == was + [s];
        left := left - {s};
      }
      active := map[];
      forall s ensures Active(Pairs(old(active)), s) <==> s in old(active) {
        ActiveIsKept(old(active), s);
      }
    }

    method RevertInitiatorStateFor(service: string, endpoint: string)
      requires Valid()
      modifies this
      ensures Valid() && Step(old(Value()), Revert(service, endpoint), Value())
    {
      ActiveIsKept(active, service);
      if !IsUpgradeServiceId(service) {
        return;
      }
      if service !in active || active[service] == {} {
        return;
      }
      active := active[service := active[service] - {endpoint}];
      if active[service] == {} {
        active := active - {service};
        hooks := hooks + [service];
        assert hooks[|old(hooks)|..] == [service];
        RemovedLast(old(active), service, endpoint);
      } else {
        assert hooks[|old(hooks)|..] == [];
        ActiveIsKept(active, service);
      }
    }
  }

  ghost function Pairs(active: map<string, set<string>>): set<(string, string)> {
    set s, e | s in active && e in active[s] :: (s, e)
  }

  lemma ActiveIsKept(active: map<string, set<string>>, service: string)
    requires forall s :: s in active ==> active[s] != {}
    ensures Active(Pairs(active), service) <==> service in active
  {
    if service in active {
      var e :| e in active[service];
      assert (service, e) in Pairs(active);
    }
  }

  lemma RemovedLast(active: map<string, set<string>>, service: string, endpoint: string)
    requires service in active && active[service] != {} && active[service] - {endpoint} == {}
    ensures Pairs(active - {service}) == Pairs(active) - {(service, endpoint)}
    ensures !Active(Pairs(active - {service}), service)
  {
    forall e | e in active[service] ensures e == endpoint {
      assert e !in active[service] - {endpoint};
    }
    assert endpoint in active[service];
  }

  // ---------------------------------------------------------------- runs

  ghost predicate IsRun(ledgers: seq<Ledger>, events: seq<Event>) {
    && |ledgers| == |events| + 1
    && ledgers[0] == Ledger({}, [])
    && forall i :: 0 <= i < |events| ==> Step(ledgers[i], events[i], ledgers[i + 1])
  }

  /** How often the first `n` steps took a service from no pair to some. */
  ghost function Starts(ledgers: seq<Ledger>, service: string, n: nat): nat
    requires n < |ledgers|
  {
    if n == 0 then 0
    else
      Starts(ledgers, service, n - 1) +
      if !Active(ledgers[n - 1].pairs, service) && Active(ledgers[n].pairs, service) then 1 else 0
  }

  /** Over any run the hook was called for a service once for each time the service
      became active, except for a time that still lasts. */
  lemma {:induction false} HookOncePerUpgrade(ledgers: seq<Ledger>, events: seq<Event>, service: string, n: nat)
    requires IsRun(ledgers, events) && n < |ledgers|
    ensures Count(ledgers[n].hooks, service) == Starts(ledgers, service, n) - if Active(ledgers[n].pairs, service) then 1 else 0
  {
    if n > 0 {
      HookOncePerUpgrade(ledgers, events, service, n - 1);
      var before, after := ledgers[n - 1], ledgers[n];
      assert Step(before, events[n - 1], after);
      assert after.hooks == before.hooks + after.hooks[|before.hooks|..];
    }
  }

  /** Every service in the ledger is the empty one, or has the postfix. */
  lemma {:induction false} OnlyWrappedServices(ledgers: seq<Ledger>, events: seq<Event>, n: nat)
    requires IsRun(ledgers, events) && n < |ledgers|
    ensures forall p :: p in ledgers[n].pairs ==> p.0 == "" || IsUpgradeServiceId(p.0)
  {
    if n > 0 {
      OnlyWrappedServices(ledgers, events, n - 1);
      assert Step(ledgers[n - 1], events[n - 1], ledgers[n]);
    }
  }

  /** Reverting an endpoint undoes its upgrade exactly when the service has a name: the
      empty service gets no postfix, and is reverted only with all the others. */
  lemma RevertUndoes(pairs: set<(string, string)>, service: string, endpoint: string)
    requires (Wrap(service), endpoint) !in pairs
    ensures After(After(pairs, Initialize(service, endpoint, true)), Revert(Wrap(service), endpoint)) == pairs <==> service != ""
  {
    var more := pairs + {(Wrap(service), endpoint)};
    assert more - {(Wrap(service), endpoint)} == pairs;
    assert (Wrap(service), endpoint) in more;
  }

  /** Reverting an endpoint of one service leaves every pair of another. */
  lemma RevertSparesOthers(pairs: set<(string, string)>, a: string, b: string, endpoint: string, other: string)
    requires a != b && !IsUpgradeServiceId(a) && !IsUpgradeServiceId(b)
    ensures (Wrap(b), other) in After(pairs, Revert(Wrap(a), endpoint)) <==> (Wrap(b), other) in pairs
  {
    if Wrap(a) == Wrap(b) {
      WrapIsInjective(a, b);
    }
  }

  /** The last word about a pair: it was upgraded, and since then neither reverted nor part of
      a reversal of everything. */
  ghost predicate LastUpgraded(events: seq<Event>, service: string, endpoint: string) {
    if events == [] then false
    else
      var before := LastUpgraded(events[..|events| - 1], service, endpoint);
      match events[|events| - 1]
      case Initialize(s, e, succeeds) => before || (succeeds && Wrap(s) == service && e == endpoint)
      case RevertAll => false
      case Revert(s, e) => before && !(s == service && e == endpoint && s != "")
  }

  /** Over any run, a pair is kept exactly if it was upgraded and not reverted since. */
  lemma {:induction false} PairIsLastWord(ledgers: seq<Ledger>, events: seq<Event>, service: string, endpoint: string, n: nat)
    requires IsRun(ledgers, events) && n < |ledgers|
    ensures (service, endpoint) in ledgers[n].pairs <==> LastUpgraded(events[..n], service, endpoint)
  {
    if n > 0 {
      PairIsLastWord(ledgers, events, service, endpoint, n - 1);
      OnlyWrappedServices(ledgers, events, n - 1);
      assert Step(ledgers[n - 1], events[n - 1], ledgers[n]);
      assert events[..n][..n - 1] == events[..n - 1];
    }
  }
}
