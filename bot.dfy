/**
 * The running bot: the process-wide target chat id written by `/start`, and
 * the scheduled scan that reads it. Transport calls are recorded as logs: the
 * fetch requests issued and the messages the chat transport accepted.
 */
module Bot {
  import opened Wrappers
  import opened Market
  import opened Strategy
  import opened Registry
  import opened Scan

  /** How a scheduled scan ended. */
  datatype RunOutcome =
    | NotArmed       // no usable target id: returned before fetching anything
    | Completed      // every pair of the scan list was visited
    | Aborted(at: nat) // the send for pair `at` raised and ended the run

  class TradingBot {
    /** The configured scan list, fixed for the life of the process. */
    const pairs: seq<Pair>
    /** The one chat that receives alerts; `None` until someone sends `/start`. */
    var target: Option<int>
    /** Every message the chat transport accepted, in order; a send that raised is not in it. */
    var outbox: seq<Message>
    /** Every pair whose candles were requested from the exchange, in order. */
    var fetched: seq<Pair>

    constructor ()
      ensures pairs == PairsToScan
      ensures target == None && outbox == [] && fetched == []
    {
      pairs := PairsToScan;
      target := None;
      outbox := [];
      fetched := [];
    }

    /**
     * The `/start` command from chat `caller`: the slot and reply follow the
     * registry's transition table, so an empty slot is claimed, the holder is
     * acknowledged, any other id is rejected, and a set slot never changes.
     */
    method Start(caller: int) returns (reply: Reply)
      modifies this`target
      ensures (target, reply) == Register(old(target), caller)
      ensures target.Some?
      ensures old(target).Some? ==> target == old(target)
    {
      if target.None? {
        target := Some(caller);
        reply := Registered;
      } else if target.value == caller {
        reply := AlreadyHere;
      } else {
        reply := OtherUser;
      }
    }

    /**
     * One scheduled scan. Without a usable target nothing is fetched or sent.
     * Otherwise the scan list is visited in order: each pair is fetched, a
     * failed fetch is skipped, and each signal is sent to the target. A send
     * that raises ends the run at that pair; the messages before it stay sent.
     * `fetches[i]` is what the exchange answers for pair `i`, and
     * `deliveryFails[i]` whether the transport raises on that pair's message.
     */
    method CheckForSignals(fetches: seq<FetchOutcome>, deliveryFails: seq<bool>, ta: Indicators)
      returns (outcome: RunOutcome)
      requires |fetches| == |pairs| && |deliveryFails| == |pairs|
      modifies this`outbox, this`fetched
      ensures !Armed(target) ==>
        outcome == NotArmed && outbox == old(outbox) && fetched == old(fetched)
      ensures Armed(target) ==>
        var k := FirstAbort(pairs, fetches, deliveryFails, ta);
        outbox == old(outbox) + Alerts(target.value, pairs[..k], fetches[..k], ta) &&
        (k == |pairs| ==> outcome == Completed && fetched == old(fetched) + pairs) &&
        (k < |pairs| ==> outcome == Aborted(k) && fetched == old(fetched) + pairs[..k + 1])
    {
      if !Armed(target) {
        return NotArmed;
      }
      var chatId := target.value;
      var scan := pairs;  // the loop reads the scan list once
      var i := 0;
      while i < |scan|
        invariant 0 <= i <= |scan|
        invariant forall j :: 0 <= j < i ==> !SendRaises(j, scan, fetches, deliveryFails, ta)
        invariant fetched == old(fetched) + scan[..i]
        invariant outbox == old(outbox) + Alerts(chatId, scan[..i], fetches[..i], ta)
      {
        assert scan[..i + 1] == scan[..i] + [scan[i]];
        AlertsSnoc(chatId, scan, fetches, i, ta);
        var raised := ProcessPair(chatId, scan[i], fetches[i], deliveryFails[i], ta);
        if raised {
          FirstAbortAt(scan, fetches, deliveryFails, ta, i);
          return Aborted(i);
        }
        i := i + 1;
      }
      assert scan[..i] == scan;
      FirstAbortAt(scan, fetches, deliveryFails, ta, i);
      return Completed;
    }

    /**
     * The body of the scan loop for one pair: fetch it, and when the fetch
     * succeeded and the strategy fires, send the signal to `chatId`.
     * `raised` reports that the send raised, in which case nothing was sent.
     */
    method ProcessPair(chatId: int, pair: Pair, outcome: FetchOutcome, deliveryFails: bool, ta: Indicators)
      returns (raised: bool)
      modifies this`outbox, this`fetched
      ensures fetched == old(fetched) + [pair]
      ensures raised <==> PairSignal(pair, outcome, ta).Some? && deliveryFails
      ensures outbox == old(outbox) +
        (match PairSignal(pair, outcome, ta)
         case Some(s) => if deliveryFails then [] else [Message(chatId, s)]
         case None => [])
    {
      fetched := fetched + [pair];
      raised := false;
      var df := GetCryptoData(outcome);
      if df.Some? {
        var signal := GenerateSignal(df, pair, ta);
        if signal.Some? {
          if deliveryFails {
            raised := true;
            return;
          }
          outbox := outbox + [Message(chatId, signal.value)];
        }
      }
    }
  }
}
