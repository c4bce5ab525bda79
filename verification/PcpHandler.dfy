/**
  The connection handler itself: an object whose tasks update its maps in place.
  Each method does what the corresponding handler does, in the same order, and is
  proved to take exactly the step of `PcpState`; `ok` is false where the code
  dereferences a null pointer.
*/
module PcpHandler {
  import opened Options
  import opened PcpState

  class BasePcpHandler {
    var pending: map<Id, Pending>
    var client: map<Id, Connection>
    var manager: map<Id, Channel>
    var encrypted: set<Channel>
    var contexts: set<Id>
    var closed: set<Channel>
    var handed: multiset<Channel>
    var entered: set<Channel>
    var settled: multiset<Future>
    var outcome: map<Future, Status>
    var asked: map<Future, Channel>
    var calls: nat
    var created: nat
    var jobs: seq<(Id, Option<Channel>)>
    var reports: seq<Report>

    ghost function View(): State
      reads this
    {
      State(pending, client, manager, encrypted, contexts, closed, handed, entered, settled, outcome, asked, calls, created, jobs, reports)
    }

    constructor ()
      ensures View() == Initial()
    {
      pending, client, manager := map[], map[], map[];
      encrypted, contexts, closed, handed, entered := {}, {}, {}, multiset{}, {};
      settled, outcome, asked := multiset{}, map[], map[];
      calls, created, jobs, reports := 0, 0, [], [];
    }

    method Close(c: Channel)
      modifies this`closed
      ensures View() == CloseChannel(old(View()), Some(c))
    {
      closed := closed + {c};
    }

    method SetResult(f: Future, status: Status)
      modifies this`settled, this`outcome
      ensures View() == SetFuture(old(View()), Some(f), status)
    {
      settled := settled + multiset{f};
      if f !in outcome {
        outcome := outcome[f := status];
      }
      assert settled == old(settled) + multiset(Elements(Some(f)));
    }

    /** The destructor of a pending entry that has left the map. */
    method DestroyInfo(info: Pending)
      modifies this`settled, this`outcome, this`closed
      ensures View() == Destroy(old(View()), info)
    {
      if info.result.Some? && info.result.value !in settled {
        SetResult(info.result.value, Error);
      }
      if info.channel.Some? {
        Close(info.channel.value);
      }
      assert settled == old(settled) + multiset(Elements(Unanswered(old(View()), info)));
      assert closed == old(closed) + Elements(info.channel);
    }

    method ErasePending(e: Id)
      modifies this`pending, this`settled, this`outcome, this`closed
      ensures View() == Erase(old(View()), e)
    {
      if e in pending {
        var info := pending[e];
        pending := pending - {e};
        DestroyInfo(info);
      }
    }

    method ProcessPreConnectionInitiationFailure(e: Id, channel: Option<Channel>, status: Status, result: Option<Future>)
      modifies this`pending, this`settled, this`outcome, this`closed
      ensures View() == FailInitiation(old(View()), e, channel, status, result)
    {
      if channel.Some? {
        Close(channel.value);
      }
      assert closed == old(closed) + Elements(channel);
      if result.Some? {
        SetResult(result.value, status);
      }
      assert settled == old(settled) + multiset(Elements(result));
      ErasePending(e);
    }

    method OnConnectionRejected(e: Id, status: Status)
      modifies this`client, this`reports
      ensures View() == ClientRejected(old(View()), e, status)
    {
      if e in client && client[e] != Connection(None, None, true) {
        reports := reports + [Rejected(e, status)];
        client := client - {e};
      }
    }

    method OnConnectionAccepted(e: Id)
      modifies this`client, this`reports
      ensures View() == ClientAccepted(old(View()), e)
    {
      if e in client && client[e] != Connection(None, None, true) {
        reports := reports + [Accepted(e)];
        client := client[e := Connection(None, None, true)];
      }
    }

    method ProcessPreConnectionResultFailure(e: Id)
      modifies this
      ensures View() == FailResult(old(View()), e)
    {
      ErasePending(e);
      OnConnectionRejected(e, Error);
    }

    method ProcessTieBreakLoss(e: Id) returns (ok: bool)
      requires e in pending
      modifies this
      ensures ok <==> LoseTie(old(View()), e).Some?
      ensures ok ==> View() == LoseTie(old(View()), e).value
    {
      var info := pending[e];
      if info.channel.None? {
        return false;
      }
      ProcessPreConnectionInitiationFailure(e, info.channel, EndpointIoError, info.result);
      ProcessPreConnectionResultFailure(e);
      ok := true;
    }

    method BreakTie(e: Id, incomingNonce: int, channel: Channel) returns (killed: bool, ok: bool)
      modifies this
      ensures var tie := PcpState.BreakTie(old(View()), e, incomingNonce, channel);
              && (ok <==> !tie.Crash?)
              && (ok ==> View() == tie.state && killed == tie.Killed?)
    {
      killed, ok := false, true;
      if e in pending {
        if pending[e].nonce > incomingNonce {
          Close(channel);
          killed := true;
        } else if pending[e].nonce < incomingNonce {
          ok := ProcessTieBreakLoss(e);
        } else {
          Close(channel);
          ok := ProcessTieBreakLoss(e);
          killed := true;
        }
      }
    }

    method EmplacePending(e: Id, info: Pending)
      modifies this
      ensures View() == Emplace(old(View()), e, info)
    {
      if e in pending {
        DestroyInfo(info);
      } else {
        pending := pending[e := info];
        if info.channel.Some? {
          entered := entered + {info.channel.value};
          if info.result.Some? {
            asked := asked[info.result.value := info.channel.value];
          }
        }
      }
    }

    /** A new call of RequestConnection; the future it will wait on is its number. */
    method NewCall() returns (result: Future)
      modifies this`calls
      ensures result == old(calls) && View() == old(View()).(calls := old(calls) + 1)
    {
      result := calls;
      calls := calls + 1;
    }

    method NewChannel()
      modifies this`created
      ensures View() == old(View()).(created := old(created) + 1)
    {
      created := created + 1;
    }

    method RequestConnection(e: Id, allowed: bool, known: bool, attempt: Attempt, writeOk: bool, nonce: int)
      modifies this
      ensures View() == Request(old(View()), e, allowed, known, attempt, writeOk, nonce)
    {
      if e !in pending && allowed && known {
        match attempt
        case NoChannel(status) =>
          var result := NewCall();
          ProcessPreConnectionInitiationFailure(e, None, status, Some(result));
        case Obtained(channel) =>
          var result := NewCall();
          NewChannel();
          RequestOverChannel(result, e, channel, writeOk, nonce);
      } else {
        var result := NewCall();
        SetResult(result, if e in pending then AlreadyConnectedToEndpoint else if !allowed then OutOfOrderApiCall else EndpointUnknown);
      }
    }

    /** Write the request frame, become pending, start encrypting. */
    method RequestOverChannel(result: Future, e: Id, channel: Channel, writeOk: bool, nonce: int)
      modifies this
      ensures View() == RequestOver(old(View()), result, e, channel, writeOk, nonce)
    {
      if !writeOk {
        ProcessPreConnectionInitiationFailure(e, Some(channel), EndpointIoError, Some(result));
      } else {
        EmplacePending(e, Pending(nonce, false, Some(result), Some(channel), false));
        StartEncryption(e);
      }
    }

    method StartEncryption(e: Id)
      requires e in pending
      modifies this`jobs
      ensures View() == StartJob(old(View()), e)
    {
      jobs := jobs + [(e, pending[e].channel)];
    }

    method OnIncomingConnection(channel: Channel, listening: bool, request: Option<(Id, int)>, allowed: bool, typeOk: bool)
      returns (ok: bool)
      modifies this
      ensures var next := Incoming(old(View()), channel, listening, request, allowed, typeOk);
              (ok <==> next.Some?) && (ok ==> View() == next.value)
    {
      NewChannel();
      ok := true;
      if !listening {
        return;
      }
      if request.None? {
        ProcessPreConnectionInitiationFailure("", Some(channel), Error, None);
        return;
      }
      ghost var next := IncomingRequest(View(), channel, request.value.0, request.value.1, allowed && typeOk);
      assert next == Incoming(old(View()), channel, listening, request, allowed, typeOk);
      ok := OnConnectionRequest(channel, request.value.0, request.value.1, allowed, typeOk);
    }

    method OnConnectionRequest(channel: Channel, e: Id, nonce: int, allowed: bool, typeOk: bool) returns (ok: bool)
      modifies this
      ensures ok <==> IncomingRequest(old(View()), channel, e, nonce, allowed && typeOk).Some?
      ensures ok ==> View() == IncomingRequest(old(View()), channel, e, nonce, allowed && typeOk).value
    {
      ok := true;
      if e in client && client[e] == Connection(None, None, true) {
        return;
      }
      var killed;
      killed, ok := BreakTie(e, nonce, channel);
      if !ok || killed || !allowed || !typeOk {
        return;
      }
      EmplacePending(e, Pending(nonce, true, None, Some(channel), false));
      StartEncryption(e);
    }

    method RegisterChannelForEndpoint(e: Id, channel: Channel)
      modifies this`handed, this`manager, this`encrypted
      ensures View() == Register(old(View()), e, channel)
    {
      handed := handed + multiset{channel};
      manager := manager[e := channel];
      if e in contexts {
        encrypted := encrypted + {channel};
      }
    }

    method OnConnectionInitiated(e: Id)
      modifies this`client
      ensures View() == ClientInitiated(old(View()), e)
    {
      if e !in client {
        client := client[e := Connection(None, None, false)];
      }
    }

    /** The endpoint manager takes the channel and tells the client. */
    method RegisterEndpoint(e: Id, channel: Channel)
      modifies this`handed, this`manager, this`encrypted, this`client
      ensures View() == ClientInitiated(Register(old(View()), e, channel), e)
    {
      RegisterChannelForEndpoint(e, channel);
      OnConnectionInitiated(e);
    }

    method OnEncryptionSuccess(e: Id, hasKey: bool) returns (ok: bool)
      modifies this
      ensures ok <==> EncryptionSuccess(old(View()), e, hasKey).Some?
      ensures ok ==> View() == EncryptionSuccess(old(View()), e, hasKey).value
    {
      if e !in pending {
        return true;
      }
      var info := pending[e];
      if info.channel.None? {
        return false;
      }
      if !hasKey {
        ProcessPreConnectionInitiationFailure(e, info.channel, EndpointIoError, info.result);
        return true;
      }
      HandOverChannel(e);
      ok := true;
    }

    method HandOverChannel(e: Id)
      requires e in pending && pending[e].channel.Some?
      modifies this
      ensures View() == HandOver(old(View()), e)
    {
      var info := pending[e];
      RegisterEndpoint(e, info.channel.value);
      if info.result.Some? {
        SetResult(info.result.value, Success);
      }
      pending := pending[e := info.(ukey2 := true, channel := None, result := None)];
      assert settled == old(settled) + multiset(Elements(info.result));
    }

    method OnEncryptionFailure(e: Id, channel: Channel) returns (ok: bool)
      modifies this
      ensures ok <==> EncryptionFailure(old(View()), e, channel).Some?
      ensures ok ==> View() == EncryptionFailure(old(View()), e, channel).value
    {
      if e !in pending {
        return true;
      }
      var info := pending[e];
      if info.channel.None? {
        return false;
      }
      if SameChannel(channel, info.channel.value) {
        ProcessPreConnectionInitiationFailure(e, info.channel, EndpointIoError, info.result);
      }
      ok := true;
    }

    /** The context is kept even where there is no channel to encrypt. */
    method EncryptChannelForEndpoint(e: Id) returns (ok: bool)
      modifies this`encrypted, this`contexts
      ensures ok == (e in manager) && View() == Encrypt(old(View()), e)
    {
      contexts := contexts + {e};
      ok := e in manager;
      if ok {
        encrypted := encrypted + {manager[e]};
      }
    }

    method EvaluateConnectionResult(e: Id) returns (ok: bool)
      modifies this
      ensures ok <==> Evaluate(old(View()), e).Some?
      ensures ok ==> View() == Evaluate(old(View()), e).value
    {
      ok := true;
      var accepted := e in client && client[e].local == Some(true) && client[e].remote == Some(true);
      var rejected := e in client && (client[e].local == Some(false) || client[e].remote == Some(false));
      if (!accepted && !rejected) || e !in pending {
        return;
      }
      var info := pending[e];
      if accepted && !info.ukey2 {
        return false;
      }
      Decide(e, accepted);
      DestroyInfo(info);
    }

    /** A decided connection: its entry leaves the map, and the client is told. */
    method Decide(e: Id, accepted: bool)
      requires accepted == IsAccepted(View(), e)
      modifies this
      ensures View() == PcpState.Decide(old(View()), e)
    {
      pending := pending - {e};
      if !accepted {
        OnConnectionRejected(e, ConnectionRejected);
        return;
      }
      var succeeded := EncryptChannelForEndpoint(e);
      if succeeded {
        OnConnectionAccepted(e);
      } else {
        OnConnectionRejected(e, EndpointUnknown);
      }
    }

    /** AcceptConnection (`accept`) and RejectConnection (not `accept`); `status` is
        what the caller is told. */
    method AnswerConnection(e: Id, accept: bool, writeOk: bool) returns (ok: bool, status: Status)
      modifies this
      ensures ok <==> Answer(old(View()), e, accept, writeOk).Some?
      ensures ok ==> View() == Answer(old(View()), e, accept, writeOk).value
      ensures status == if e !in old(pending) || e !in old(manager) then EndpointUnknown
                        else if !writeOk then EndpointIoError else Success
    {
      ok, status := true, Success;
      if e !in pending {
        status := EndpointUnknown;
        return;
      }
      if e !in manager {
        ProcessPreConnectionResultFailure(e);
        status := EndpointUnknown;
        return;
      }
      if !writeOk {
        ProcessPreConnectionResultFailure(e);
        status := EndpointIoError;
        return;
      }
      if e in client && client[e].local.None? {
        client := client[e := client[e].(local := Some(accept))];
      }
      ok := EvaluateConnectionResult(e);
    }

    /** A response frame may carry an explicit response or only a status. */
    method OnIncomingFrame(e: Id, response: Option<bool>, status: Status) returns (ok: bool)
      modifies this
      ensures var accept := if response.Some? then response.value else status == Success;
              && (ok <==> Response(old(View()), e, accept).Some?)
              && (ok ==> View() == Response(old(View()), e, accept).value)
    {
      if e in client && client[e].remote.Some? {
        return true;
      }
      var accept := if response.Some? then response.value else status == Success;
      if e in client {
        client := client[e := client[e].(remote := Some(accept))];
      }
      ok := EvaluateConnectionResult(e);
    }

    method OnEndpointDisconnect(e: Id)
      modifies this
      ensures View() == FailResult(old(View()), e)
    {
      ProcessPreConnectionResultFailure(e);
    }
  }
}
