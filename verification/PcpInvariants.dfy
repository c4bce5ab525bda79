/**
  What every handler step keeps, over every run of the connection handler.
*/
module PcpInvariants {
  import opened Options
  import opened PcpState

  // ---------------------------------------------------------------- invariant

  /** An entry holds a channel while it is handshaking and a key afterwards, never
      both and never neither; only a handshaking entry has a waiter. */
  predicate OneOf(s: State) {
    forall e | e in s.pending ::
      && (s.pending[e].channel.Some? <==> !s.pending[e].ukey2)
      && (s.pending[e].result.Some? ==> s.pending[e].channel.Some?)
  }

  predicate Handshaking(pending: map<Id, Pending>, e: Id) {
    e in pending && pending[e].channel.Some?
  }

  ghost predicate Owned(pending: map<Id, Pending>, c: Channel) {
    exists e :: Handshaking(pending, e) && pending[e].channel.value == c
  }

  /** A channel that became pending is owned by an entry and neither closed nor handed
      over, or it was handed over exactly once, or it was closed. */
  ghost predicate Accounted(pending: map<Id, Pending>, entered: set<Channel>, closed: set<Channel>,
                            handed: multiset<Channel>, c: Channel)
  {
    c in entered ==>
      || (Owned(pending, c) && handed[c] == 0 && c !in closed)
      || (!Owned(pending, c) && handed[c] == 1 && c !in closed)
      || (!Owned(pending, c) && handed[c] == 0 && c in closed)
  }

  /** No two entries own the same channel. */
  predicate Apart(pending: map<Id, Pending>, e: Id, d: Id) {
    Handshaking(pending, e) && Handshaking(pending, d) && pending[e].channel == pending[d].channel ==> e == d
  }

  predicate Housed(pending: map<Id, Pending>, entered: set<Channel>, e: Id) {
    Handshaking(pending, e) ==> pending[e].channel.value in entered
  }

  ghost predicate Channels(pending: map<Id, Pending>, entered: set<Channel>, closed: set<Channel>,
                           handed: multiset<Channel>, created: nat)
  {
    && (forall e :: Housed(pending, entered, e))
    && (forall e, d :: Apart(pending, e, d))
    && (forall c :: Accounted(pending, entered, closed, handed, c))
    && (forall c | c in handed :: c in entered)
    && (forall c | c in closed || c in entered :: c.id < created)
  }

  ghost predicate Waiting(pending: map<Id, Pending>, f: Future) {
    exists e :: Handshaking(pending, e) && pending[e].result == Some(f)
  }

  /** A request's future was set exactly once, or is still held by an entry. */
  ghost predicate Settled(pending: map<Id, Pending>, settled: multiset<Future>, calls: nat, f: Future) {
    && (f < calls ==> settled[f] == 1 || (settled[f] == 0 && Waiting(pending, f)))
    && (f >= calls ==> settled[f] == 0)
  }

  /** The future an entry holds is unset, and its request asked for the entry's channel. */
  predicate Asking(pending: map<Id, Pending>, settled: multiset<Future>, asked: map<Future, Channel>, calls: nat, e: Id) {
    Handshaking(pending, e) && pending[e].result.Some? ==>
      var f := pending[e].result.value;
      f < calls && f !in settled && f in asked && pending[e].channel.value == asked[f]
  }

  ghost predicate Futures(pending: map<Id, Pending>, settled: multiset<Future>, asked: map<Future, Channel>, calls: nat) {
    && (forall e :: Asking(pending, settled, asked, calls, e))
    && (forall f: Future :: Settled(pending, settled, calls, f))
    && (forall f: Future | f in asked :: f < calls)
  }

  /** A set future reports success exactly when its request's own channel was handed
      over; otherwise that channel, if there was one, was closed. */
  predicate Told(settled: multiset<Future>, outcome: map<Future, Status>, asked: map<Future, Channel>,
                 closed: set<Channel>, handed: multiset<Channel>, f: Future)
  {
    && (f in settled <==> f in outcome)
    && (f in outcome && outcome[f] == Success ==> f in asked && asked[f] in handed)
    && (f in outcome && outcome[f] != Success && f in asked ==> asked[f] in closed)
  }

  ghost predicate Outcomes(settled: multiset<Future>, outcome: map<Future, Status>, asked: map<Future, Channel>,
                           closed: set<Channel>, handed: multiset<Channel>)
  {
    forall f: Future :: Told(settled, outcome, asked, closed, handed, f)
  }

  ghost predicate Conserved(s: State) {
    Channels(s.pending, s.entered, s.closed, s.handed, s.created)
  }

  ghost predicate Waited(s: State) {
    Futures(s.pending, s.settled, s.asked, s.calls)
  }

  ghost predicate Truthful(s: State) {
    Outcomes(s.settled, s.outcome, s.asked, s.closed, s.handed)
  }

  ghost predicate Books(s: State) {
    OneOf(s) && Conserved(s) && Waited(s) && Truthful(s)
  }

  /** If the client knows `e` and has not decided, `e` has an entry with a key. */
  predicate Keyed(s: State, e: Id) {
    Registered(s, e) ==> e in s.pending && s.pending[e].ukey2
  }

  /** The client knows `e` and has not decided. */
  predicate Registered(s: State, e: Id) {
    e in s.client && !s.client[e].connected
  }

  /** An incoming connection whose request cannot be read removes the entry of the empty
      id, even from under a connection that is not decided. */
  predicate Orphans(s: State, ev: Event, e: Id) {
    e == "" && ev.OnIncoming? && ev.listening && ev.request.None? && Registered(s, e)
  }

  ghost predicate Inv(s: State) {
    Books(s) && forall e :: e != "" ==> Keyed(s, e)
  }

  // ---------------------------------------------------------------- removing an entry

  /** Close what the entry owns, answer who waits for it, and forget it. */
  function Drop(s: State, e: Id, status: Status): State {
    if e !in s.pending then s
    else
      var p := s.pending[e];
      s.(pending := s.pending - {e},
         closed := s.closed + Elements(p.channel),
         settled := s.settled + multiset(Elements(p.result)),
         outcome := if p.result.Some? then s.outcome[p.result.value := status] else s.outcome)
  }

  /** The future of an entry is unset, so whoever removes the entry sets it. */
  lemma EntryUnset(s: State, e: Id)
    requires Books(s) && e in s.pending && s.pending[e].result.Some?
    ensures s.pending[e].result.value !in s.settled && s.pending[e].result.value !in s.outcome
    ensures s.pending[e].result.value in s.asked && s.pending[e].channel == Some(s.asked[s.pending[e].result.value])
    ensures s.pending[e].result.value < s.calls
  {
    var f := s.pending[e].result.value;
    assert Asking(s.pending, s.settled, s.asked, s.calls, e);
    assert Told(s.settled, s.outcome, s.asked, s.closed, s.handed, f);
  }

  predicate Unset(s: State, e: Id) {
    e in s.pending && s.pending[e].result.Some? ==>
      s.pending[e].result.value !in s.settled && s.pending[e].result.value !in s.outcome
  }

  lemma IdleEffects(s: State, status: Status)
    ensures CloseChannel(s, None) == s && SetFuture(s, None, status) == s
  {
    assert s.closed + Elements<Channel>(None) == s.closed;
    assert s.settled + multiset(Elements<Future>(None)) == s.settled;
  }

  lemma DestroyShape(s: State, p: Pending)
    requires p.result.Some? ==> p.result.value !in s.settled && p.result.value !in s.outcome
    ensures Destroy(s, p) ==
            s.(closed := s.closed + Elements(p.channel),
               settled := s.settled + multiset(Elements(p.result)),
               outcome := if p.result.Some? then s.outcome[p.result.value := Error] else s.outcome)
  {
  }

  lemma EraseDrops(s: State, e: Id)
    requires Unset(s, e)
    ensures Erase(s, e) == Drop(s, e, Error)
  {
    if e in s.pending {
      DestroyShape(s.(pending := s.pending - {e}), s.pending[e]);
    }
  }

  /** Nothing happens twice: the second close and the second look at the future are idle. */
  lemma FailInitiationDrops(s: State, e: Id, status: Status)
    requires Unset(s, e) && e in s.pending
    ensures FailInitiation(s, e, s.pending[e].channel, status, s.pending[e].result) == Drop(s, e, status)
  {
    var p := s.pending[e];
    var t := SetFuture(CloseChannel(s, p.channel), p.result, status);
    assert Unanswered(t, p) == None;
    assert t.settled + multiset(Elements<Future>(None)) == t.settled;
    assert t.closed + Elements(p.channel) == t.closed;
  }

  lemma RemovalConserves(pending: map<Id, Pending>, entered: set<Channel>, closed: set<Channel>,
                         handed: multiset<Channel>, created: nat, e: Id)
    requires Channels(pending, entered, closed, handed, created) && e in pending
    ensures Channels(pending - {e}, entered, closed + Elements(pending[e].channel), handed, created)
  {
    var rest, closed' := pending - {e}, closed + Elements(pending[e].channel);
    assert Housed(pending, entered, e);
    forall d ensures Housed(rest, entered, d) {
      assert Housed(pending, entered, d);
    }
    forall d, d' ensures Apart(rest, d, d') {
      assert Apart(pending, d, d');
    }
    forall c ensures Accounted(rest, entered, closed', handed, c) {
      assert Accounted(pending, entered, closed, handed, c);
      OwnedAfterRemoval(pending, e, c);
    }
  }

  lemma OwnedAfterRemoval(pending: map<Id, Pending>, e: Id, c: Channel)
    requires e in pending && forall d, d' :: Apart(pending, d, d')
    ensures pending[e].channel == Some(c) ==> Owned(pending, c) && !Owned(pending - {e}, c)
    ensures pending[e].channel != Some(c) ==> (Owned(pending, c) <==> Owned(pending - {e}, c))
  {
    var rest := pending - {e};
    if pending[e].channel == Some(c) {
      assert Handshaking(pending, e);
      forall d | Handshaking(rest, d) ensures rest[d].channel.value != c {
        assert Apart(pending, d, e);
      }
    } else if Owned(pending, c) {
      var d :| Handshaking(pending, d) && pending[d].channel.value == c;
      assert Handshaking(rest, d) && rest[d].channel.value == c;
    }
    if Owned(rest, c) {
      var d :| Handshaking(rest, d) && rest[d].channel.value == c;
      assert Handshaking(pending, d) && pending[d].channel.value == c;
    }
  }

  lemma RemovalSettles(pending: map<Id, Pending>, settled: multiset<Future>, asked: map<Future, Channel>, calls: nat, e: Id)
    requires Futures(pending, settled, asked, calls) && e in pending
    requires pending[e].result.Some? ==> pending[e].channel.Some?
    requires forall d, d' :: Apart(pending, d, d')
    ensures Futures(pending - {e}, settled + multiset(Elements(pending[e].result)), asked, calls)
  {
    var rest, settled' := pending - {e}, settled + multiset(Elements(pending[e].result));
    assert Asking(pending, settled, asked, calls, e);
    forall d ensures Asking(rest, settled', asked, calls, d) {
      assert Asking(pending, settled, asked, calls, d);
      assert Apart(pending, e, d);
    }
    forall f: Future ensures Settled(rest, settled', calls, f) {
      assert Settled(pending, settled, calls, f);
      if pending[e].result != Some(f) && Waiting(pending, f) {
        var d :| Handshaking(pending, d) && pending[d].result == Some(f);
        assert Handshaking(rest, d) && rest[d].result == Some(f);
      }
    }
  }

  lemma FailureIsTruthful(settled: multiset<Future>, outcome: map<Future, Status>, asked: map<Future, Channel>,
                          closed: set<Channel>, handed: multiset<Channel>, f: Option<Future>, c: Option<Channel>, status: Status)
    requires Outcomes(settled, outcome, asked, closed, handed) && status != Success
    requires f.Some? ==> f.value !in settled && (f.value in asked ==> c == Some(asked[f.value]))
    ensures Outcomes(settled + multiset(Elements(f)), if f.Some? then outcome[f.value := status] else outcome,
                     asked, closed + Elements(c), handed)
  {
    var settled', closed' := settled + multiset(Elements(f)), closed + Elements(c);
    var outcome' := if f.Some? then outcome[f.value := status] else outcome;
    forall g: Future ensures Told(settled', outcome', asked, closed', handed, g) {
      assert Told(settled, outcome, asked, closed, handed, g);
    }
  }

  lemma DropKeeps(s: State, e: Id, status: Status)
    requires Books(s) && status != Success
    ensures Books(Drop(s, e, status)) && Unset(s, e)
  {
    if e in s.pending {
      var p := s.pending[e];
      if p.result.Some? {
        EntryUnset(s, e);
      }
      RemovalConserves(s.pending, s.entered, s.closed, s.handed, s.created, e);
      RemovalSettles(s.pending, s.settled, s.asked, s.calls, e);
      FailureIsTruthful(s.settled, s.outcome, s.asked, s.closed, s.handed, p.result, p.channel, status);
    }
  }

  // ---------------------------------------------------------------- adding and handing over

  lemma InsertionConserves(pending: map<Id, Pending>, entered: set<Channel>, closed: set<Channel>,
                           handed: multiset<Channel>, created: nat, e: Id, p: Pending)
    requires Channels(pending, entered, closed, handed, created)
    requires e !in pending && p.channel.Some? && p.channel.value.id < created
    requires p.channel.value !in entered && p.channel.value !in closed
    ensures Channels(pending[e := p], entered + {p.channel.value}, closed, handed, created)
  {
    var more, entered', new' := pending[e := p], entered + {p.channel.value}, p.channel.value;
    forall d ensures Housed(more, entered', d) {
      assert Housed(pending, entered, d);
    }
    forall d, d' ensures Apart(more, d, d') {
      assert Apart(pending, d, d') && Housed(pending, entered, d) && Housed(pending, entered, d');
    }
    forall c ensures Accounted(more, entered', closed, handed, c) {
      assert Accounted(pending, entered, closed, handed, c);
      if c == new' {
        assert Handshaking(more, e) && more[e].channel.value == c;
      } else if Owned(pending, c) {
        var d :| Handshaking(pending, d) && pending[d].channel.value == c;
        assert Handshaking(more, d) && more[d].channel.value == c;
      }
      if c != new' && Owned(more, c) {
        var d :| Handshaking(more, d) && more[d].channel.value == c;
        assert Handshaking(pending, d) && pending[d].channel.value == c;
      }
    }
  }

  /** A new entry without a waiter, or with the waiter of the request being served. */
  lemma InsertionWaits(pending: map<Id, Pending>, settled: multiset<Future>, asked: map<Future, Channel>, calls: nat, e: Id, p: Pending)
    requires Futures(pending, settled, asked, calls)
    requires e !in pending && p.channel.Some? && (p.result.Some? ==> p.result.value == calls)
    ensures Futures(pending[e := p], settled,
                    if p.result.Some? then asked[calls := p.channel.value] else asked, calls + |Elements(p.result)|)
  {
    var more, calls' := pending[e := p], calls + |Elements(p.result)|;
    var asked' := if p.result.Some? then asked[calls := p.channel.value] else asked;
    assert Settled(pending, settled, calls, calls);
    forall d ensures Asking(more, settled, asked', calls', d) {
      assert Asking(pending, settled, asked, calls, d);
    }
    forall f: Future ensures Settled(more, settled, calls', f) {
      assert Settled(pending, settled, calls, f);
      if p.result == Some(f) {
        assert Handshaking(more, e) && more[e].result == Some(f);
      } else if Waiting(pending, f) {
        var d :| Handshaking(pending, d) && pending[d].result == Some(f);
        assert Handshaking(more, d) && more[d].result == Some(f);
      }
    }
  }

  lemma NewFutureIsTruthful(settled: multiset<Future>, outcome: map<Future, Status>, asked: map<Future, Channel>,
                            closed: set<Channel>, handed: multiset<Channel>, f: Future, c: Channel)
    requires Outcomes(settled, outcome, asked, closed, handed) && f !in settled
    ensures Outcomes(settled, outcome, asked[f := c], closed, handed)
  {
    var asked' := asked[f := c];
    forall g: Future ensures Told(settled, outcome, asked', closed, handed, g) {
      assert Told(settled, outcome, asked, closed, handed, g);
    }
  }

  lemma HandOverConserves(pending: map<Id, Pending>, entered: set<Channel>, closed: set<Channel>,
                          handed: multiset<Channel>, created: nat, e: Id, p: Pending)
    requires Channels(pending, entered, closed, handed, created) && Handshaking(pending, e) && p.channel.None?
    ensures Channels(pending[e := p], entered, closed, handed + multiset{pending[e].channel.value}, created)
  {
    var after, handed', mine := pending[e := p], handed + multiset{pending[e].channel.value}, pending[e].channel.value;
    assert Housed(pending, entered, e);
    forall d ensures Housed(after, entered, d) {
      assert Housed(pending, entered, d);
    }
    forall d, d' ensures Apart(after, d, d') {
      assert Apart(pending, d, d');
    }
    forall c ensures Accounted(after, entered, closed, handed', c) {
      assert Accounted(pending, entered, closed, handed, c);
      OwnedAfterRemoval(pending, e, c);
      OwnedSkips(pending, e, p, c);
    }
  }

  lemma OwnedSkips(pending: map<Id, Pending>, e: Id, p: Pending, c: Channel)
    requires p.channel.None?
    ensures Owned(pending[e := p], c) <==> Owned(pending - {e}, c)
  {
    var after, rest := pending[e := p], pending - {e};
    if Owned(after, c) {
      var d :| Handshaking(after, d) && after[d].channel.value == c;
      assert Handshaking(rest, d) && rest[d].channel.value == c;
    }
    if Owned(rest, c) {
      var d :| Handshaking(rest, d) && rest[d].channel.value == c;
      assert Handshaking(after, d) && after[d].channel.value == c;
    }
  }

  lemma HandOverSettles(pending: map<Id, Pending>, settled: multiset<Future>, asked: map<Future, Channel>, calls: nat, e: Id, p: Pending)
    requires Futures(pending, settled, asked, calls) && Handshaking(pending, e) && p.result.None?
    requires forall d, d' :: Apart(pending, d, d')
    ensures Futures(pending[e := p], settled + multiset(Elements(pending[e].result)), asked, calls)
  {
    var after, settled' := pending[e := p], settled + multiset(Elements(pending[e].result));
    assert Asking(pending, settled, asked, calls, e);
    forall d ensures Asking(after, settled', asked, calls, d) {
      assert Asking(pending, settled, asked, calls, d);
      assert Apart(pending, e, d);
    }
    forall f: Future ensures Settled(after, settled', calls, f) {
      assert Settled(pending, settled, calls, f);
      if pending[e].result != Some(f) && Waiting(pending, f) {
        var d :| Handshaking(pending, d) && pending[d].result == Some(f);
        assert Handshaking(after, d) && after[d].result == Some(f);
      }
    }
  }

  lemma SuccessIsTruthful(settled: multiset<Future>, outcome: map<Future, Status>, asked: map<Future, Channel>,
                          closed: set<Channel>, handed: multiset<Channel>, f: Option<Future>, c: Channel)
    requires Outcomes(settled, outcome, asked, closed, handed)
    requires f.Some? ==> f.value !in settled && f.value in asked && asked[f.value] == c
    ensures Outcomes(settled + multiset(Elements(f)), if f.Some? then outcome[f.value := Success] else outcome,
                     asked, closed, handed + multiset{c})
  {
    var settled', handed' := settled + multiset(Elements(f)), handed + multiset{c};
    var outcome' := if f.Some? then outcome[f.value := Success] else outcome;
    forall g: Future ensures Told(settled', outcome', asked, closed, handed', g) {
      assert Told(settled, outcome, asked, closed, handed, g);
    }
  }

  lemma HandOverShape(s: State, e: Id)
    requires e in s.pending && s.pending[e].channel.Some? && Unset(s, e)
    ensures var p, t := s.pending[e], HandOver(s, e);
            t == s.(pending := s.pending[e := p.(channel := None, ukey2 := true, result := None)],
                    client := t.client,
                    manager := t.manager,
                    encrypted := t.encrypted,
                    handed := s.handed + multiset{p.channel.value},
                    settled := s.settled + multiset(Elements(p.result)),
                    outcome := if p.result.Some? then s.outcome[p.result.value := Success] else s.outcome)
  {
  }

  lemma HandOverKeeps(s: State, e: Id)
    requires Books(s) && e in s.pending && s.pending[e].channel.Some?
    ensures Books(HandOver(s, e))
  {
    var p := s.pending[e];
    var p' := p.(channel := None, ukey2 := true, result := None);
    if p.result.Some? {
      EntryUnset(s, e);
    }
    HandOverShape(s, e);
    HandOverConserves(s.pending, s.entered, s.closed, s.handed, s.created, e, p');
    HandOverSettles(s.pending, s.settled, s.asked, s.calls, e, p');
    SuccessIsTruthful(s.settled, s.outcome, s.asked, s.closed, s.handed, p.result, p.channel.value);
  }

  lemma RefusalSettles(pending: map<Id, Pending>, settled: multiset<Future>, asked: map<Future, Channel>, calls: nat)
    requires Futures(pending, settled, asked, calls)
    ensures Futures(pending, settled + multiset(Elements(Some(calls))), asked, calls + 1)
  {
    assert Settled(pending, settled, calls, calls);
    var settled', calls' := settled + multiset(Elements(Some(calls))), calls + 1;
    forall d ensures Asking(pending, settled', asked, calls', d) {
      assert Asking(pending, settled, asked, calls, d);
    }
    forall f: Future ensures Settled(pending, settled', calls', f) {
      assert Settled(pending, settled, calls, f);
    }
  }

  /** A channel that is new to the handler. */
  predicate IsNew(s: State, c: Channel) {
    c.id < s.created && c !in s.entered && c !in s.closed
  }

  lemma GrowthKeeps(s: State, c: Channel)
    requires Books(s) && c.id == s.created
    ensures var t := s.(created := s.created + 1); Books(t) && IsNew(t, c)
  {
  }

  lemma ClosingKeeps(s: State, c: Channel)
    requires Books(s) && IsNew(s, c)
    ensures Books(CloseChannel(s, Some(c)))
  {
    var closed' := s.closed + {c};
    forall d ensures Accounted(s.pending, s.entered, closed', s.handed, d) {
      assert Accounted(s.pending, s.entered, s.closed, s.handed, d);
    }
    forall f: Future ensures Told(s.settled, s.outcome, s.asked, closed', s.handed, f) {
      assert Told(s.settled, s.outcome, s.asked, s.closed, s.handed, f);
    }
  }

  lemma RefusalKeeps(s: State, status: Status)
    requires Books(s) && status != Success
    ensures Books(Refuse(s, status))
  {
    assert Settled(s.pending, s.settled, s.calls, s.calls);
    assert Told(s.settled, s.outcome, s.asked, s.closed, s.handed, s.calls);
    RefusalSettles(s.pending, s.settled, s.asked, s.calls);
    FailureIsTruthful(s.settled, s.outcome, s.asked, s.closed, s.handed, Some(s.calls), None, status);
    assert s.closed + Elements<Channel>(None) == s.closed;
  }

  // ---------------------------------------------------------------- the handlers

  /** Books look at no field of the client, the channel manager or the logs. */
  lemma BooksFrame(s: State, t: State)
    requires Books(s)
    requires t == s.(client := t.client, manager := t.manager, encrypted := t.encrypted, contexts := t.contexts, jobs := t.jobs, reports := t.reports)
    ensures Books(t)
  {
  }

  lemma RequestInsertKeeps(s: State, e: Id, c: Channel, nonce: int)
    requires Books(s) && e !in s.pending && IsNew(s, c)
    ensures Books(RequestOver(s.(calls := s.calls + 1), s.calls, e, c, true, nonce))
  {
    var p := Pending(nonce, false, Some(s.calls), Some(c), false);
    InsertionConserves(s.pending, s.entered, s.closed, s.handed, s.created, e, p);
    InsertionWaits(s.pending, s.settled, s.asked, s.calls, e, p);
    assert Settled(s.pending, s.settled, s.calls, s.calls);
    NewFutureIsTruthful(s.settled, s.outcome, s.asked, s.closed, s.handed, s.calls, c);
  }

  lemma RequestOverBooks(s: State, e: Id, c: Channel, writeOk: bool, nonce: int)
    requires Books(s) && e !in s.pending && IsNew(s, c)
    ensures Books(RequestOver(s.(calls := s.calls + 1), s.calls, e, c, writeOk, nonce))
  {
    if writeOk {
      RequestInsertKeeps(s, e, c, nonce);
    } else {
      ClosingKeeps(s, c);
      RefusalKeeps(CloseChannel(s, Some(c)), EndpointIoError);
    }
  }

  lemma NoChannelRefuses(s: State, e: Id, status: Status)
    requires e !in s.pending
    ensures FailInitiation(s.(calls := s.calls + 1), e, None, status, Some(s.calls)) == Refuse(s, status)
  {
    IdleEffects(s.(calls := s.calls + 1), status);
  }

  lemma RequestWithChannelBooks(s: State, e: Id, c: Channel, writeOk: bool, nonce: int)
    requires Books(s) && e !in s.pending && c.id == s.created
    ensures Books(RequestOver(s.(created := s.created + 1, calls := s.calls + 1), s.calls, e, c, writeOk, nonce))
  {
    GrowthKeeps(s, c);
    RequestOverBooks(s.(created := s.created + 1), e, c, writeOk, nonce);
  }

  /** A request that ends without a channel, and how it ends. */
  predicate Refused(s: State, ev: Event)
    requires ev.OnRequest?
  {
    ev.e in s.pending || !ev.allowed || !ev.known || ev.attempt.NoChannel?
  }

  function Refusal(s: State, ev: Event): Status
    requires ev.OnRequest? && Refused(s, ev)
  {
    if ev.e in s.pending then AlreadyConnectedToEndpoint
    else if !ev.allowed then OutOfOrderApiCall
    else if !ev.known then EndpointUnknown
    else ev.attempt.status
  }

  lemma RequestRefused(s: State, ev: Event)
    requires ev.OnRequest? && Refused(s, ev)
    ensures Next(s, ev) == Some(Refuse(s, Refusal(s, ev)))
  {
    if ev.e !in s.pending {
      NoChannelRefuses(s, ev.e, Refusal(s, ev));
    }
  }

  lemma RequestGoesOn(s: State, ev: Event)
    requires ev.OnRequest? && !Refused(s, ev)
    ensures var u := s.(created := s.created + 1, calls := s.calls + 1);
            Next(s, ev) == Some(RequestOver(u, s.calls, ev.e, ev.attempt.channel, ev.writeOk, ev.nonce))
  {
  }

  /** A request either ends at once or leaves a new entry. */
  lemma RequestBooks(s: State, ev: Event)
    requires Books(s) && ev.OnRequest? && Enabled(s, ev)
    ensures Books(Next(s, ev).value)
  {
    var t := Next(s, ev);
    if Refused(s, ev) {
      RequestRefused(s, ev);
      assert t == Some(Refuse(s, Refusal(s, ev)));
      RefusalKeeps(s, Refusal(s, ev));
    } else {
      RequestGoesOn(s, ev);
      RequestWithChannelBooks(s, ev.e, ev.attempt.channel, ev.writeOk, ev.nonce);
    }
  }

  lemma IncomingInsertKeeps(s: State, e: Id, c: Channel, nonce: int)
    requires Books(s) && e !in s.pending && IsNew(s, c)
    ensures Books(StartJob(Emplace(s, e, Pending(nonce, true, None, Some(c), false)), e))
  {
    var p := Pending(nonce, true, None, Some(c), false);
    InsertionConserves(s.pending, s.entered, s.closed, s.handed, s.created, e, p);
    InsertionWaits(s.pending, s.settled, s.asked, s.calls, e, p);
  }

  /** Losing a tie removes the entry, and nothing else. */
  lemma LoseTieKeeps(s: State, e: Id)
    requires Books(s) && e in s.pending && LoseTie(s, e).Some?
    ensures var t := LoseTie(s, e).value;
            Books(t) && t == Drop(s, e, EndpointIoError).(client := t.client, reports := t.reports)
  {
    DropKeeps(s, e, EndpointIoError);
    FailInitiationDrops(s, e, EndpointIoError);
    BooksFrame(Drop(s, e, EndpointIoError), LoseTie(s, e).value);
  }

  lemma FailResultKeeps(s: State, e: Id)
    requires Books(s)
    ensures Books(FailResult(s, e))
    ensures FailResult(s, e) == ClientRejected(Drop(s, e, Error), e, Error)
  {
    DropKeeps(s, e, Error);
    EraseDrops(s, e);
    BooksFrame(Drop(s, e, Error), FailResult(s, e));
  }

  lemma BreakTieBooks(s: State, e: Id, nonce: int, c: Channel)
    requires Books(s) && IsNew(s, c) && !BreakTie(s, e, nonce, c).Crash?
    ensures var tie := BreakTie(s, e, nonce, c);
            Books(tie.state) && (tie.Proceed? ==> e !in tie.state.pending && IsNew(tie.state, c))
  {
    if e in s.pending {
      if s.pending[e].nonce == nonce {
        ClosingKeeps(s, c);
        LoseTieKeeps(CloseChannel(s, Some(c)), e);
      } else if s.pending[e].nonce < nonce {
        LoseTieKeeps(s, e);
        assert Housed(s.pending, s.entered, e);
      } else {
        ClosingKeeps(s, c);
      }
    }
  }

  lemma EraseKeeps(s: State, e: Id)
    requires Books(s)
    ensures Books(Erase(s, e))
  {
    DropKeeps(s, e, Error);
    EraseDrops(s, e);
  }

  lemma IncomingRequestBooks(s: State, c: Channel, e: Id, nonce: int, welcome: bool)
    requires Books(s) && IsNew(s, c) && IncomingRequest(s, c, e, nonce, welcome).Some?
    ensures Books(IncomingRequest(s, c, e, nonce, welcome).value)
  {
    if !IsConnected(s, e) {
      BreakTieBooks(s, e, nonce, c);
      var tie := BreakTie(s, e, nonce, c);
      if tie.Proceed? && welcome {
        IncomingInsertKeeps(tie.state, e, c, nonce);
      }
    }
  }

  lemma UnreadableBooks(s: State, c: Channel)
    requires Books(s) && IsNew(s, c)
    ensures Books(FailInitiation(s, "", Some(c), Error, None))
  {
    ClosingKeeps(s, c);
    var h := CloseChannel(s, Some(c));
    IdleEffects(h, Error);
    EraseKeeps(h, "");
  }

  lemma IncomingBooks(s: State, ev: Event)
    requires Books(s) && ev.OnIncoming? && Enabled(s, ev) && Next(s, ev).Some?
    ensures Books(Next(s, ev).value)
  {
    var g, t := s.(created := s.created + 1), Next(s, ev);
    GrowthKeeps(s, ev.channel);
    if !ev.listening {
      assert t == Some(g);
    } else if ev.request.None? {
      assert t == Some(FailInitiation(g, "", Some(ev.channel), Error, None));
      UnreadableBooks(g, ev.channel);
    } else {
      assert t == IncomingRequest(g, ev.channel, ev.request.value.0, ev.request.value.1, ev.allowed && ev.typeOk);
      IncomingRequestBooks(g, ev.channel, ev.request.value.0, ev.request.value.1, ev.allowed && ev.typeOk);
    }
  }

  /** `t` is `s` without the entry of `e`, but for what the client and the channel learn. */
  predicate DropsTo(s: State, e: Id, t: State) {
    t == Drop(s, e, Error).(client := t.client, encrypted := t.encrypted, contexts := t.contexts, reports := t.reports)
  }

  lemma DestroyDrops(s: State, u: State, e: Id)
    requires Unset(s, e) && e in s.pending
    requires u == s.(pending := s.pending - {e}, client := u.client, encrypted := u.encrypted, contexts := u.contexts, reports := u.reports)
    ensures DropsTo(s, e, Destroy(u, s.pending[e]))
  {
    DestroyShape(u, s.pending[e]);
  }

  lemma DecideShape(s: State, e: Id)
    ensures var u := Decide(s, e);
            u == s.(pending := s.pending - {e}, client := u.client, encrypted := u.encrypted, contexts := u.contexts, reports := u.reports)
  {
  }

  /** Evaluating a decided connection removes its entry. */
  lemma EvaluateDrops(s: State, e: Id)
    requires Unset(s, e) && Evaluate(s, e).Some? && (IsAccepted(s, e) || IsRejected(s, e))
    ensures DropsTo(s, e, Evaluate(s, e).value)
  {
    if e in s.pending {
      DecideShape(s, e);
      DestroyDrops(s, Decide(s, e), e);
    }
  }

  lemma EvaluateBooks(s: State, e: Id)
    requires Books(s) && Evaluate(s, e).Some?
    ensures Books(Evaluate(s, e).value)
  {
    if IsAccepted(s, e) || IsRejected(s, e) {
      DropKeeps(s, e, Error);
      EvaluateDrops(s, e);
      BooksFrame(Drop(s, e, Error), Evaluate(s, e).value);
    }
  }

  lemma FailedEncryptionBooks(s: State, e: Id)
    requires Books(s) && e in s.pending
    ensures Books(FailInitiation(s, e, s.pending[e].channel, EndpointIoError, s.pending[e].result))
  {
    DropKeeps(s, e, EndpointIoError);
    FailInitiationDrops(s, e, EndpointIoError);
  }

  lemma AnswerBooks(s: State, e: Id, accept: bool, writeOk: bool)
    requires Books(s) && Answer(s, e, accept, writeOk).Some?
    ensures Books(Answer(s, e, accept, writeOk).value)
  {
    if e in s.pending {
      if e !in s.manager || !writeOk {
        FailResultKeeps(s, e);
      } else {
        BooksFrame(s, LocalAnswer(s, e, accept));
        EvaluateBooks(LocalAnswer(s, e, accept), e);
      }
    }
  }

  lemma ResponseBooks(s: State, e: Id, accept: bool)
    requires Books(s) && Response(s, e, accept).Some?
    ensures Books(Response(s, e, accept).value)
  {
    if e !in s.client || s.client[e].remote.None? {
      BooksFrame(s, RemoteAnswer(s, e, accept));
      EvaluateBooks(RemoteAnswer(s, e, accept), e);
    }
  }

  lemma StepBooks(s: State, ev: Event)
    requires Books(s) && Enabled(s, ev) && Next(s, ev).Some?
    ensures Books(Next(s, ev).value)
  {
    match ev
    case OnRequest(_, _, _, _, _, _) => RequestBooks(s, ev);
    case OnIncoming(_, _, _, _, _) => IncomingBooks(s, ev);
    case OnSuccess(e, hasKey) =>
      if e in s.pending {
        if hasKey { HandOverKeeps(s, e); } else { FailedEncryptionBooks(s, e); }
      }
    case OnFailure(e, c) =>
      if e in s.pending { FailedEncryptionBooks(s, e); }
    case OnAnswer(e, accept, writeOk) => AnswerBooks(s, e, accept, writeOk);
    case OnResponse(e, accept) => ResponseBooks(s, e, accept);
    case OnDisconnect(e) => FailResultKeeps(s, e);
    case OnUnregister(e) => BooksFrame(s, Next(s, ev).value);
    case OnClientGone(e) => BooksFrame(s, Next(s, ev).value);
  }

  // ---------------------------------------------------------------- keys

  /** The fields that the removal of an entry leaves to the client. */
  lemma ErasePending(s: State, e: Id)
    ensures Erase(s, e).pending == s.pending - {e}
    ensures Erase(s, e).client == s.client && Erase(s, e).manager == s.manager
  {
  }

  lemma FailInitiationPending(s: State, e: Id, c: Option<Channel>, status: Status, f: Option<Future>)
    ensures FailInitiation(s, e, c, status, f).pending == s.pending - {e}
    ensures FailInitiation(s, e, c, status, f).client == s.client
    ensures FailInitiation(s, e, c, status, f).manager == s.manager
  {
    ErasePending(SetFuture(CloseChannel(s, c), f, status), e);
  }

  lemma DestroyPending(s: State, p: Pending)
    ensures Destroy(s, p).pending == s.pending && Destroy(s, p).client == s.client && Destroy(s, p).manager == s.manager
    ensures Destroy(s, p).created == s.created
  {
  }

  /** `t` has the client of `s`, and its entries with at most a new one for `e`. */
  predicate Gains(s: State, t: State, e: Id) {
    && t.client == s.client
    && (t.pending == s.pending || (e !in s.pending && e in t.pending && t.pending == s.pending[e := t.pending[e]]))
  }

  lemma RequestOverPending(s: State, f: Future, e: Id, c: Channel, writeOk: bool, nonce: int)
    requires e !in s.pending
    ensures Gains(s, RequestOver(s, f, e, c, writeOk, nonce), e)
  {
    if !writeOk {
      FailInitiationPending(s, e, Some(c), EndpointIoError, Some(f));
      assert s.pending - {e} == s.pending;
    }
  }

  lemma RequestPending(s: State, ev: Event)
    requires ev.OnRequest?
    ensures Gains(s, Next(s, ev).value, ev.e)
  {
    if Refused(s, ev) {
      RequestRefused(s, ev);
    } else {
      RequestGoesOn(s, ev);
      RequestOverPending(s.(created := s.created + 1, calls := s.calls + 1), s.calls, ev.e, ev.attempt.channel, ev.writeOk, ev.nonce);
    }
  }

  /** A decided connection loses its entry and gets a clean record, or none. */
  lemma EvaluatePending(s: State, e: Id)
    requires Evaluate(s, e).Some?
    ensures var t := Evaluate(s, e).value;
            if (IsAccepted(s, e) || IsRejected(s, e)) && e in s.pending then
              && t.pending == s.pending - {e} && t.manager == s.manager && t.created == s.created
              && t.client == if IsAccepted(s, e) && e in s.manager then s.client[e := Connection(None, None, true)] else s.client - {e}
            else t == s
  {
    if (IsAccepted(s, e) || IsRejected(s, e)) && e in s.pending {
      DestroyPending(Decide(s, e), s.pending[e]);
    }
  }

  lemma FailResultKeyed(s: State, e: Id, d: Id)
    requires Keyed(s, d)
    ensures Keyed(FailResult(s, e), d) && FailResult(s, e).pending == s.pending - {e}
  {
    ErasePending(s, e);
  }

  lemma RequestKeyed(s: State, ev: Event, d: Id)
    requires Keyed(s, d) && ev.OnRequest?
    ensures Keyed(Next(s, ev).value, d)
  {
    RequestPending(s, ev);
  }

  lemma LoseTieKeyed(s: State, e: Id, d: Id)
    requires OneOf(s) && Keyed(s, d) && e in s.pending && LoseTie(s, e).Some?
    ensures Keyed(LoseTie(s, e).value, d) && e !in LoseTie(s, e).value.pending
  {
    var p := s.pending[e];
    var t := FailInitiation(s, e, p.channel, EndpointIoError, p.result);
    FailInitiationPending(s, e, p.channel, EndpointIoError, p.result);
    assert Keyed(t, d);
    FailResultKeyed(t, e, d);
  }

  lemma BreakTieKeyed(s: State, e: Id, nonce: int, c: Channel, d: Id)
    requires OneOf(s) && Keyed(s, d) && !BreakTie(s, e, nonce, c).Crash?
    ensures var tie := BreakTie(s, e, nonce, c);
            Keyed(tie.state, d) && (tie.Proceed? ==> e !in tie.state.pending)
  {
    if e in s.pending {
      if s.pending[e].nonce < nonce {
        LoseTieKeyed(s, e, d);
      } else if s.pending[e].nonce == nonce {
        LoseTieKeyed(CloseChannel(s, Some(c)), e, d);
      }
    }
  }

  lemma IncomingRequestKeyed(s: State, c: Channel, e: Id, nonce: int, welcome: bool, d: Id)
    requires OneOf(s) && Keyed(s, d) && IncomingRequest(s, c, e, nonce, welcome).Some?
    ensures Keyed(IncomingRequest(s, c, e, nonce, welcome).value, d)
  {
    if !IsConnected(s, e) {
      BreakTieKeyed(s, e, nonce, c, d);
    }
  }

  /** Only an unreadable request can take a key from an undecided connection, and it
      always does if the connection is the one with the empty id. */
  lemma IncomingKeyed(s: State, ev: Event, d: Id)
    requires OneOf(s) && Keyed(s, d) && ev.OnIncoming? && Next(s, ev).Some?
    ensures Keyed(Next(s, ev).value, d) <==> !Orphans(s, ev, d)
  {
    var g, t := s.(created := s.created + 1), Next(s, ev);
    if ev.listening && ev.request.None? {
      FailInitiationPending(g, "", Some(ev.channel), Error, None);
    } else if ev.listening {
      assert t == IncomingRequest(g, ev.channel, ev.request.value.0, ev.request.value.1, ev.allowed && ev.typeOk);
      IncomingRequestKeyed(g, ev.channel, ev.request.value.0, ev.request.value.1, ev.allowed && ev.typeOk, d);
    }
  }

  lemma HandOverKeyed(s: State, e: Id, d: Id)
    requires Keyed(s, d) && e in s.pending && s.pending[e].channel.Some?
    ensures Keyed(HandOver(s, e), d)
  {
  }

  lemma FailedEncryptionKeyed(s: State, e: Id, d: Id)
    requires OneOf(s) && Keyed(s, d) && e in s.pending && s.pending[e].channel.Some?
    ensures Keyed(FailInitiation(s, e, s.pending[e].channel, EndpointIoError, s.pending[e].result), d)
  {
    FailInitiationPending(s, e, s.pending[e].channel, EndpointIoError, s.pending[e].result);
  }

  lemma EncryptionKeyed(s: State, ev: Event, d: Id)
    requires OneOf(s) && Keyed(s, d) && (ev.OnSuccess? || ev.OnFailure?) && Next(s, ev).Some?
    ensures Keyed(Next(s, ev).value, d)
  {
    if ev.e in s.pending && s.pending[ev.e].channel.Some? {
      if ev.OnSuccess? && ev.hasKey {
        HandOverKeyed(s, ev.e, d);
      } else {
        FailedEncryptionKeyed(s, ev.e, d);
      }
    }
  }

  lemma EvaluateKeyed(s: State, e: Id, d: Id)
    requires Keyed(s, d) && Evaluate(s, e).Some?
    ensures Keyed(Evaluate(s, e).value, d)
  {
    EvaluatePending(s, e);
  }

  lemma AnswerKeyed(s: State, ev: Event, d: Id)
    requires Keyed(s, d) && (ev.OnAnswer? || ev.OnResponse?) && Next(s, ev).Some?
    ensures Keyed(Next(s, ev).value, d)
  {
    match ev
    case OnAnswer(e, accept, writeOk) =>
      if e in s.pending && e in s.manager && writeOk {
        EvaluateKeyed(LocalAnswer(s, e, accept), e, d);
      } else {
        FailResultKeyed(s, e, d);
      }
    case OnResponse(e, accept) =>
      if e !in s.client || s.client[e].remote.None? {
        EvaluateKeyed(RemoteAnswer(s, e, accept), e, d);
      }
  }

  lemma StepKeyed(s: State, ev: Event, d: Id)
    requires OneOf(s) && Keyed(s, d) && Next(s, ev).Some?
    ensures Keyed(Next(s, ev).value, d) <==> !Orphans(s, ev, d)
  {
    match ev
    case OnRequest(_, _, _, _, _, _) => RequestKeyed(s, ev, d);
    case OnIncoming(_, _, _, _, _) => IncomingKeyed(s, ev, d);
    case OnSuccess(_, _) => EncryptionKeyed(s, ev, d);
    case OnFailure(_, _) => EncryptionKeyed(s, ev, d);
    case OnAnswer(_, _, _) => AnswerKeyed(s, ev, d);
    case OnResponse(_, _) => AnswerKeyed(s, ev, d);
    case OnDisconnect(e) => FailResultKeyed(s, e, d);
    case _ =>
  }

  // ---------------------------------------------------------------- every run

  lemma InitialInv()
    ensures Inv(Initial())
  {
  }

  lemma {:induction false} Reachable(r: Run, i: nat)
    requires IsRun(r) && i < |r.states|
    ensures Inv(r.states[i])
  {
    if i == 0 {
      InitialInv();
    } else {
      Reachable(r, i - 1);
      assert IsStep(r.states[i - 1], r.events[i - 1], r.states[i]);
      StepBooks(r.states[i - 1], r.events[i - 1]);
      forall e | e != "" ensures Keyed(r.states[i], e) {
        StepKeyed(r.states[i - 1], r.events[i - 1], e);
      }
    }
  }
}
