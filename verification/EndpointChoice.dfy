/**
  Choosing the endpoint to connect to: all records of an id, best medium first, until one
  of them connects.
*/
module EndpointChoice {
  import opened Options
  import opened Mediums
  import opened Discovery

  /** Strictly preferred, under the handler's list of mediums. */
  predicate Better(mediums: seq<Medium>, a: Record, b: Record) {
    Rank(mediums, a.medium) < Rank(mediums, b.medium)
  }

  /** What sorting asks of a comparator: a strict weak order. */
  lemma StrictWeakOrder(mediums: seq<Medium>, a: Record, b: Record, c: Record)
    ensures !Better(mediums, a, a)
    ensures Better(mediums, a, b) && Better(mediums, b, c) ==> Better(mediums, a, c)
    ensures !Better(mediums, a, b) && !Better(mediums, b, a) && !Better(mediums, b, c) && !Better(mediums, c, b) ==>
              !Better(mediums, a, c) && !Better(mediums, c, a)
  {
  }

  ghost predicate Sorted(mediums: seq<Medium>, rs: seq<Record>) {
    forall i, j :: 0 <= i < j < |rs| ==> !Better(mediums, rs[j], rs[i])
  }

  /** Put one more record into a sorted list. */
  method Insert(mediums: seq<Medium>, rs: seq<Record>, r: Record) returns (more: seq<Record>)
    requires Sorted(mediums, rs)
    ensures Sorted(mediums, more) && multiset(more) == multiset(rs) + multiset{r}
  {
    var k := |rs|;
    while k > 0
      invariant 0 <= k <= |rs|
      invariant forall i :: k <= i < |rs| ==> Better(mediums, r, rs[i])
    {
      var before := IsPreferred(mediums, r.medium, rs[k - 1].medium);
      if !before {
        break;
      }
      k := k - 1;
    }
    more := rs[..k] + [r] + rs[k..];
    InsertedSorted(mediums, rs, r, k);
    InsertedOnce(rs, r, k);
  }

  lemma InsertedOnce(rs: seq<Record>, r: Record, k: nat)
    requires k <= |rs|
    ensures multiset(rs[..k] + [r] + rs[k..]) == multiset(rs) + multiset{r}
  {
    assert rs == rs[..k] + rs[k..];
  }

  lemma InsertedSorted(mediums: seq<Medium>, rs: seq<Record>, r: Record, k: nat)
    requires Sorted(mediums, rs) && k <= |rs|
    requires k > 0 ==> !Better(mediums, r, rs[k - 1])
    requires forall i :: k <= i < |rs| ==> Better(mediums, r, rs[i])
    ensures Sorted(mediums, rs[..k] + [r] + rs[k..])
  {
    var more := rs[..k] + [r] + rs[k..];
    forall i, j | 0 <= i < j < |more| ensures !Better(mediums, more[j], more[i]) {
      var a, b := if i < k then i else i - 1, if j < k then j else j - 1;
      if i == k {
        assert Better(mediums, r, rs[b]);
      } else if j != k {
        assert !Better(mediums, rs[b], rs[a]);
      } else if i < k - 1 {
        assert !Better(mediums, rs[k - 1], rs[i]);
      }
    }
  }

  /** All records of an id, most preferred medium first. Records of equally preferred
      mediums may come in any order. */
  method GetDiscoveredEndpoints(index: EndpointIndex, mediums: seq<Medium>, id: Id) returns (result: seq<Record>)
    ensures multiset(result) == multiset(Range(index.endpoints, id))
    ensures Sorted(mediums, result)
  {
    var range := Range(index.endpoints, id);
    result := [];
    for i := 0 to |range|
      invariant multiset(result) == multiset(range[..i])
      invariant Sorted(mediums, result)
    {
      result := Insert(mediums, result, range[i]);
      assert range[..i + 1] == range[..i] + [range[i]];
    }
    assert range[..|range|] == range;
  }

  method MediumSupportedByClientOptions(options: Selector, medium: Medium) returns (r: bool)
    ensures r <==> Flag(options, medium, true)
  {
    var supported := GetMediums(options, true);
    for i := 0 to |supported|
      invariant medium !in supported[..i]
    {
      if supported[i] == medium {
        return true;
      }
    }
    assert supported[..|supported|] == supported;
    return false;
  }

  /** The records the client's options allow. */
  function Allowed(options: Selector, rs: seq<Record>): seq<Record> {
    if rs == [] then []
    else
      var last := rs[|rs| - 1];
      Allowed(options, rs[..|rs| - 1]) + if Flag(options, last.medium, true) then [last] else []
  }

  lemma {:induction false} AllowedCount(options: Selector, rs: seq<Record>, r: Record)
    ensures multiset(Allowed(options, rs))[r] == if Flag(options, r.medium, true) then multiset(rs)[r] else 0
  {
    if rs != [] {
      AllowedCount(options, rs[..|rs| - 1], r);
      assert rs == rs[..|rs| - 1] + [rs[|rs| - 1]];
    }
  }

  /** Try records one after another. Whether an attempt succeeds may depend on how many
      were made before it. */
  method TryInOrder(endpoints: seq<Record>, options: Selector, connects: (nat, Record) -> bool)
    returns (at: nat, failed: seq<Record>)
    ensures at <= |endpoints| && failed == Allowed(options, endpoints[..at])
    ensures forall n :: 0 <= n < |failed| ==> !connects(n, failed[n])
    ensures at < |endpoints| ==> Flag(options, endpoints[at].medium, true) && connects(|failed|, endpoints[at])
  {
    failed := [];
    for i := 0 to |endpoints|
      invariant failed == Allowed(options, endpoints[..i])
      invariant forall n :: 0 <= n < |failed| ==> !connects(n, failed[n])
    {
      assert endpoints[..i + 1][..i] == endpoints[..i];
      var supported := MediumSupportedByClientOptions(options, endpoints[i].medium);
      if !supported {
        continue;
      }
      if connects(|failed|, endpoints[i]) {
        return i, failed;
      }
      failed := failed + [endpoints[i]];
    }
    at := |endpoints|;
  }

  /** Connect to an id: the choice is an allowed record of that id, after every allowed
      one that is strictly better failed; without a choice, every allowed one failed. */
  method ConnectToBest(index: EndpointIndex, mediums: seq<Medium>, options: Selector, id: Id, connects: (nat, Record) -> bool)
    returns (chosen: Option<Record>, failed: seq<Record>)
    ensures Attempted(Range(index.endpoints, id), mediums, options, connects, failed)
    ensures chosen.Some? ==> connects(|failed|, chosen.value) && IsBest(Range(index.endpoints, id), mediums, options, failed, chosen.value)
    ensures chosen.None? ==> Exhausted(Range(index.endpoints, id), options, failed)
  {
    var endpoints := GetDiscoveredEndpoints(index, mediums, id);
    var at;
    at, failed := TryInOrder(endpoints, options, connects);
    AllowedSorted(mediums, options, endpoints, at);
    SameMembers(endpoints, Range(index.endpoints, id));
    if at < |endpoints| {
      chosen := Some(endpoints[at]);
      Stopped(mediums, options, endpoints, at);
    } else {
      chosen := None;
      assert endpoints[..at] == endpoints;
      forall r ensures multiset(failed)[r] == if Flag(options, r.medium, true) then multiset(endpoints)[r] else 0 {
        AllowedCount(options, endpoints, r);
      }
    }
  }

  lemma SameMembers(a: seq<Record>, b: seq<Record>)
    requires multiset(a) == multiset(b)
    ensures forall r :: r in a <==> r in b
  {
    forall r ensures r in a <==> r in b {
      assert r in a <==> r in multiset(a);
    }
  }

  /** Failed attempts at allowed records, best first. */
  ghost predicate Attempted(range: seq<Record>, mediums: seq<Medium>, options: Selector, connects: (nat, Record) -> bool, failed: seq<Record>) {
    && Sorted(mediums, failed)
    && (forall n :: 0 <= n < |failed| ==> !connects(n, failed[n]) && failed[n] in range && Flag(options, failed[n].medium, true))
  }

  /** Every allowed record that is strictly better was tried, as often as it is there. */
  ghost predicate IsBest(range: seq<Record>, mediums: seq<Medium>, options: Selector, failed: seq<Record>, best: Record) {
    && best in range && Flag(options, best.medium, true)
    && (forall r :: Better(mediums, r, best) && Flag(options, r.medium, true) ==> multiset(failed)[r] == multiset(range)[r])
  }

  /** Every allowed record was tried, as often as it is there, and nothing else. */
  ghost predicate Exhausted(range: seq<Record>, options: Selector, failed: seq<Record>) {
    forall r :: multiset(failed)[r] == if Flag(options, r.medium, true) then multiset(range)[r] else 0
  }

  lemma {:induction false} AllowedSorted(mediums: seq<Medium>, options: Selector, rs: seq<Record>, n: nat)
    requires Sorted(mediums, rs) && n <= |rs|
    ensures Sorted(mediums, Allowed(options, rs[..n]))
    ensures forall i :: 0 <= i < |Allowed(options, rs[..n])| ==> Allowed(options, rs[..n])[i] in rs[..n] && Flag(options, Allowed(options, rs[..n])[i].medium, true)
  {
    if n > 0 {
      AllowedSorted(mediums, options, rs, n - 1);
      assert rs[..n][..n - 1] == rs[..n - 1];
    }
  }

  /** Everything strictly better than the i-th of a sorted list stands before it. */
  lemma Stopped(mediums: seq<Medium>, options: Selector, rs: seq<Record>, i: nat)
    requires Sorted(mediums, rs) && i < |rs|
    ensures var failed := Allowed(options, rs[..i]);
            && Sorted(mediums, failed)
            && (forall n :: 0 <= n < |failed| ==> failed[n] in rs && Flag(options, failed[n].medium, true))
            && (forall r :: Better(mediums, r, rs[i]) && Flag(options, r.medium, true) ==> multiset(failed)[r] == multiset(rs)[r])
  {
    AllowedSorted(mediums, options, rs, i);
    var failed := Allowed(options, rs[..i]);
    forall r | Better(mediums, r, rs[i]) && Flag(options, r.medium, true) ensures multiset(failed)[r] == multiset(rs)[r] {
      AllowedCount(options, rs[..i], r);
      assert rs == rs[..i] + rs[i..];
      assert r !in rs[i..];
      assert multiset(rs[i..])[r] == 0;
    }
  }
}
