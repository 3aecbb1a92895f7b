/** The peer end, updated in place. */
module PeerRadio {
  import opened Bytes
  import opened MacFrames
  import opened Arq
  import opened PeerModel
  import opened Radio

  class SecondaryRadioInterface {
    const radio: RadioInterface
    var grantBudget: byte
    var grantedToSend: bool

    ghost function View(): Peer
      reads this, radio
    {
      Peer(radio.View(), grantedToSend, grantBudget)
    }

    constructor ()
      ensures !grantedToSend && grantBudget == 0
      ensures radio.Cleared() && fresh(radio) && View() == NEW_PEER
    {
      radio := new RadioInterface();
      grantBudget, grantedToSend := 0, false;
    }

    method HandleReset() returns (response: MacFrame)
      modifies this, radio
      ensures View() == PeerModel.HandleReset(old(View())) && response == RESET_FRAME
      ensures radio.Cleared()
    {
      radio.ResetSessionLocked();
      grantedToSend := false;
      grantBudget := 0;
      response := MacFrame(RESET, 0, 0, 0, 0, []);
    }

    method ApplyCoordinatorRequest(request: MacFrame) returns (ok: bool)
      modifies this, radio
      ensures (View(), ok) == ApplyRequest(old(View()), request)
      ensures old(radio.Cleared()) ==> radio.Cleared()
    {
      radio.CommitAckLocked(request.ack);
      if request.kind == DATA {
        ok := radio.ConsumeDataFrameLocked(request);
        if !ok {
          return;
        }
        grantedToSend := false;
        grantBudget := 0;
      } else if request.kind == GRANT {
        grantBudget := request.arg;
        grantedToSend := grantBudget > 0;
        ok := true;
      } else if request.kind == PENDING || request.kind == ACK {
        grantedToSend := false;
        grantBudget := 0;
        ok := true;
      } else {
        ok := false;
      }
    }

    /** `gap` is what the tunnel thread does between the has-data check and the second lock. */
    method ChoosePeerResponse(gap: seq<TunnelEvent>) returns (ok: bool, tx: MacFrame)
      modifies this, radio
      ensures old(radio.Cleared()) ==> radio.Cleared()
      ensures var (p, f) := ChooseResponse(old(View()), gap);
              View() == p && ok == f.Some? && (ok ==> f.value == tx)
    {
      var ack := if radio.lastRxSeq.Some? then radio.lastRxSeq.value else NO_SEQ;
      var localHasData := radio.txInFlight || radio.readBuffer != [];
      radio.TunnelThread(gap);
      tx := MacFrame(INVALID, 0, ack, if localHasData then 1 else 0, 0, []);
      if grantedToSend && grantBudget > 0 && localHasData {
        ok, tx := radio.BuildNextDataFrameLocked();
        if !ok {
          return;
        }
        tx := tx.(pending := 1);
        grantBudget := grantBudget - 1;
        if grantBudget == 0 {
          grantedToSend := false;
        }
        return;
      }
      ok := true;
      tx := tx.(kind := if localHasData then PENDING else ACK);
    }

    /** One iteration of the loop on a received packet; what is sent back, if anything. */
    method RunIteration(request: array<byte>, gaps: PeerGaps) returns (response: Option<seq<byte>>)
      modifies this, radio
      ensures (View(), response) == PeerTurn(old(View()), old(request[..]), gaps)
      ensures old(radio.Cleared()) ==> radio.Cleared()
    {
      response := None;
      var ok, rx := DecodeMacFrame(request);
      if !ok {
        return;
      }
      var tx: MacFrame;
      if rx.kind == RESET {
        tx := HandleReset();
      } else {
        ok := ApplyCoordinatorRequest(rx);
        if !ok {
          return;
        }
        radio.TunnelThread(gaps.beforeCheck);
        ok, tx := ChoosePeerResponse(gaps.beforeBuild);
        if !ok {
          return;
        }
      }
      var encoded, packet := EncodeMacFrame(tx);
      if encoded {
        response := Some(packet[..]);
      }
    }
  }
}
