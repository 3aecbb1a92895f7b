/** The coordinator end, updated in place. */
module CoordinatorRadio {
  import opened Bytes
  import opened MacFrames
  import opened Arq
  import opened LinkHealth
  import CM = CoordinatorModel
  import opened Radio

  class PrimaryRadioInterface {
    const radio: RadioInterface
    var state: CM.Mode
    var connectionResetRequired: bool
    var peerHasPending: bool
    var consecutiveLocalDataFrames: byte

    var pollFailCount: nat
    var sendFailStreak: nat
    var timeoutFailStreak: nat

    var disconnected: bool
    var disconnectBackoffUs: nat
    var nextRetryTimeUs: nat

    ghost function LinkView(): Link
      reads this
    {
      Link(disconnected, connectionResetRequired, sendFailStreak, timeoutFailStreak, pollFailCount,
           disconnectBackoffUs, nextRetryTimeUs)
    }

    ghost function View(): CM.Coord
      reads this, radio
    {
      CM.Coord(radio.View(), state, LinkView(), peerHasPending, consecutiveLocalDataFrames)
    }

    constructor ()
      ensures state == CM.ResetSync && connectionResetRequired && !peerHasPending && consecutiveLocalDataFrames == 0
      ensures !disconnected && disconnectBackoffUs == 100000 && nextRetryTimeUs == 0
      ensures pollFailCount == sendFailStreak == timeoutFailStreak == 0
      ensures radio.Cleared() && fresh(radio) && View() == CM.NEW_COORD
    {
      radio := new RadioInterface();
      state, connectionResetRequired, peerHasPending, consecutiveLocalDataFrames := CM.ResetSync, true, false, 0;
      pollFailCount, sendFailStreak, timeoutFailStreak := 0, 0, 0;
      disconnected, disconnectBackoffUs, nextRetryTimeUs := false, INITIAL_BACKOFF_US, 0;
    }

    /** The handshake, given what the radio will say to the RESET request. */
    method ConnectionReset(reply: CM.Reply) returns (ok: bool)
      modifies this`peerHasPending, this`consecutiveLocalDataFrames, radio
      ensures (View(), ok) == CM.ConnectionReset(old(View()), reply)
      ensures radio.Cleared()
    {
      radio.ResetSessionLocked();
      peerHasPending := false;
      consecutiveLocalDataFrames := 0;
      if !reply.Got? {
        return false;
      }
      var response := new byte[|reply.wire|](i requires 0 <= i < |reply.wire| => reply.wire[i]);
      assert response[..] == reply.wire;
      var decoded, rx := DecodeMacFrame(response);
      ok := decoded && rx.kind == RESET;
    }

    method ChooseCoordinatorTxFrame(gap: seq<TunnelEvent>) returns (ok: bool, tx: MacFrame)
      modifies radio
      ensures old(radio.Cleared()) ==> radio.Cleared()
      ensures var (c, f) := CM.ChooseTx(old(View()), gap);
              View() == c && ok == f.Some? && (ok ==> f.value == tx)
      ensures state == CM.IssueGrant || state == CM.ActiveRx ==>
                ok && tx == MacFrame(2, 0, if radio.lastRxSeq.Some? then radio.lastRxSeq.value else 0,
                                     if old(radio.txInFlight || radio.readBuffer != []) then 1 else 0, 3, [])
      ensures ok && tx.kind == 3 ==> tx.pending == 1
    {
      var ack := if radio.lastRxSeq.Some? then radio.lastRxSeq.value else NO_SEQ;
      var localHasData := radio.txInFlight || radio.readBuffer != [];
      radio.TunnelThread(gap);
      tx := MacFrame(INVALID, 0, ack, 0, 0, []);
      ok := true;
      match state
      case ResetSync =>
        tx := tx.(kind := RESET);
      case IssueGrant =>
        tx := tx.(kind := GRANT, pending := if localHasData then 1 else 0, arg := CM.DEFAULT_BURST_GRANT);
      case ActiveRx =>
        tx := tx.(kind := GRANT, pending := if localHasData then 1 else 0, arg := CM.DEFAULT_BURST_GRANT);
      case Idle =>
        if localHasData {
          if peerHasPending && consecutiveLocalDataFrames >= CM.FAIR_DATA_BURST_LIMIT {
            tx := tx.(kind := GRANT, pending := 1, arg := CM.DEFAULT_BURST_GRANT);
            return;
          }
          ok, tx := radio.BuildNextDataFrameLocked();
          if ok {
            tx := tx.(pending := 1);
          }
        } else {
          tx := tx.(kind := PENDING);
        }
    }

    method ApplyPeerResponse(rx: MacFrame) returns (applied: bool)
      modifies this`state, this`peerHasPending, radio
      ensures (View(), applied) == CM.ApplyResponse(old(View()), rx)
      ensures old(radio.Cleared()) ==> radio.Cleared()
    {
      radio.CommitAckLocked(rx.ack);
      if rx.kind == DATA {
        var ok := radio.ConsumeDataFrameLocked(rx);
        if !ok {
          return false;
        }
      }
      peerHasPending := rx.pending != 0;
      applied := true;
      if rx.kind == ACK {
        state := if peerHasPending then CM.IssueGrant else CM.Idle;
      } else if rx.kind == PENDING {
        state := CM.IssueGrant;
      } else if rx.kind == DATA {
        state := if peerHasPending then CM.ActiveRx else CM.Idle;
      } else {
        applied := false;
      }
    }

    /** One exchange, given what the radio will say to the request. */
    method PerformExchange(reply: CM.Reply, t: CM.Tick) returns (result: CM.ExchangeResult)
      modifies this`state, this`peerHasPending, this`consecutiveLocalDataFrames, radio
      ensures (View(), result) == CM.PerformExchange(old(View()), reply, t)
      ensures old(radio.Cleared()) ==> radio.Cleared()
    {
      hide CM.ChooseTx, CM.ApplyResponse, Encode, Decode, TunnelRun;
      var chosen, tx := ChooseCoordinatorTxFrame(t.beforeBuild);
      if !chosen {
        assert CM.ChooseTx(old(View()), t.beforeBuild).1.None?;
        return CM.Failed(ProtocolFailure);
      }
      var encoded, request := EncodeMacFrame(tx);
      if !encoded {
        return CM.Failed(ProtocolFailure);
      }
      radio.TunnelThread(t.whileWaiting);
      match reply
      case SendFailed => result := CM.Failed(SendFailure);
      case TimedOut => result := CM.Failed(TimeoutFailure);
      case Got(wire) =>
        var response := new byte[|wire|](i requires 0 <= i < |wire| => wire[i]);
        assert response[..] == wire;
        var decoded, rx := DecodeMacFrame(response);
        if !decoded {
          return CM.Failed(ProtocolFailure);
        }
        var applied := ApplyPeerResponse(rx);
        if applied {
          if tx.kind == DATA && rx.kind != DATA {
            consecutiveLocalDataFrames := Min(consecutiveLocalDataFrames + 1, 255);
          } else if tx.kind != DATA || rx.kind == DATA {
            consecutiveLocalDataFrames := 0;
          }
        }
        if !applied {
          consecutiveLocalDataFrames := 0;
        }
        result := if applied then CM.Success else CM.Failed(ProtocolFailure);
    }

    method HandleTransactionFailure(f: Failure, now: nat)
      modifies this
      ensures View() == CM.HandleFailure(old(View()), f, now)
    {
      match f {
        case SendFailure =>
          sendFailStreak := sendFailStreak + 1;
          timeoutFailStreak := 0;
        case TimeoutFailure =>
          timeoutFailStreak := timeoutFailStreak + 1;
          sendFailStreak := 0;
        case ProtocolFailure =>
          sendFailStreak := sendFailStreak + 1;
          timeoutFailStreak := timeoutFailStreak + 1;
      }
      var combined := sendFailStreak + timeoutFailStreak;
      pollFailCount := combined;
      if || sendFailStreak >= DISCONNECT_FAILURE_THRESHOLD
         || timeoutFailStreak >= DISCONNECT_FAILURE_THRESHOLD + 2
         || combined >= DISCONNECT_FAILURE_THRESHOLD + 3
      {
        disconnected := true;
        connectionResetRequired := true;
        state := CM.ResetSync;
        nextRetryTimeUs := now + disconnectBackoffUs;
      }
    }

    method MarkConnected()
      modifies this
      ensures View() == CM.Reconnect(old(View()))
    {
      disconnected := false;
      connectionResetRequired := false;
      pollFailCount := 0;
      sendFailStreak := 0;
      timeoutFailStreak := 0;
      disconnectBackoffUs := INITIAL_BACKOFF_US;
      nextRetryTimeUs := 0;
      state := CM.Idle;
    }

    /** One iteration of the loop, given the clock, the tunnel activity and the radio's reply. */
    method RunIteration(t: CM.Tick, reply: CM.Reply)
      modifies this, radio
      ensures View() == CM.Iterate(old(View()), t, reply)
      ensures old(radio.Cleared()) ==> radio.Cleared()
    {
      hide CM.PerformExchange, CM.HandleFailure, CM.BeginReset, CM.IsResetReply;
      if disconnected {
        if t.now < nextRetryTimeUs {
          return;
        }
        var ok := ConnectionReset(reply);
        if !ok {
          nextRetryTimeUs := t.later + disconnectBackoffUs;
          disconnectBackoffUs := disconnectBackoffUs * 2;
          if disconnectBackoffUs > MAX_BACKOFF_US {
            disconnectBackoffUs := MAX_BACKOFF_US;
          }
        } else {
          MarkConnected();
        }
        return;
      }
      if connectionResetRequired {
        var ok := ConnectionReset(reply);
        if !ok {
          HandleTransactionFailure(ProtocolFailure, t.later);
        } else {
          MarkConnected();
        }
        return;
      }
      var result := PerformExchange(reply, t);
      match result
      case Success =>
        pollFailCount := 0;
        sendFailStreak := 0;
        timeoutFailStreak := 0;
        disconnected := false;
        disconnectBackoffUs := INITIAL_BACKOFF_US;
        nextRetryTimeUs := 0;
      case Failed(f) =>
        HandleTransactionFailure(f, t.later);
    }
  }
}
