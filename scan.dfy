/**
 * What one scheduled scan should send, stated over whole runs: the messages
 * the scan list yields, in order, the gate on the registered id, and where a
 * failing send cuts the run short.
 */
module Scan {
  import opened Wrappers
  import opened Market
  import opened Strategy
  import opened Registry

  /** One message handed to the transport: the chat it goes to and its content. */
  datatype Message = Message(chatId: int, signal: Signal)

  /**
   * The scan's gate: Python's `not TARGET_CHAT_ID` holds for `None` and also
   * for the id `0`, so only a registered non-zero id lets a run proceed.
   */
  predicate Armed(target: Option<int>) {
    target.Some? && target.value != 0
  }

  /** The run proceeds exactly for a registered non-zero id: `None` and `0` both shut the gate. */
  lemma ArmedIffNonZeroId(target: Option<int>)
    ensures !Armed(None) && !Armed(Some(0))
    ensures Armed(target) <==> exists id :: id != 0 && target == Some(id)
  {
    if Armed(target) {
      assert target == Some(target.value);
    }
  }

  /**
   * The signal a pair yields when its fetch produced `outcome`: none when the
   * fetch failed, otherwise the strategy's verdict on the bars received, which
   * is always a LONG signal for that pair.
   */
  function PairSignal(pair: Pair, outcome: FetchOutcome, ta: Indicators): (r: Option<Signal>)
    ensures outcome.FetchError? ==> r.None?
    ensures outcome.Bars? ==> r == GenerateSignal(Some(outcome.bars), pair, ta)
    ensures r.Some? ==> r.value.pair == pair && r.value.direction == Long
  {
    match GetCryptoData(outcome)
    case None => None
    case Some(df) => GenerateSignal(Some(df), pair, ta)
  }

  /** Indices of the pairs whose fetch and strategy yield a signal. */
  function SignallingPairs(pairs: seq<Pair>, fetches: seq<FetchOutcome>, ta: Indicators): set<nat>
    requires |pairs| == |fetches|
  {
    set i: nat | i < |pairs| && PairSignal(pairs[i], fetches[i], ta).Some?
  }

  /**
   * The messages a scan over `pairs` hands to the transport for chat
   * `chatId`, in scan order: one per pair whose fetch succeeded and whose
   * strategy yielded a signal. A run never sends more messages than it has
   * pairs.
   */
  function Alerts(chatId: int, pairs: seq<Pair>, fetches: seq<FetchOutcome>, ta: Indicators): (r: seq<Message>)
    requires |pairs| == |fetches|
    ensures |r| <= |pairs|
    decreases |pairs|
  {
    if pairs == [] then []
    else
      var n := |pairs| - 1;
      var earlier := Alerts(chatId, pairs[..n], fetches[..n], ta);
      match PairSignal(pairs[n], fetches[n], ta)
      case Some(s) => earlier + [Message(chatId, s)]
      case None => earlier
  }

  /** Whether pair `i` produces a send and that send raises. */
  predicate SendRaises(i: nat, pairs: seq<Pair>, fetches: seq<FetchOutcome>, deliveryFails: seq<bool>, ta: Indicators)
    requires i < |pairs| == |fetches| == |deliveryFails|
  {
    PairSignal(pairs[i], fetches[i], ta).Some? && deliveryFails[i]
  }

  /**
   * Where a run stops: the first pair whose send raises, or `|pairs|` when no
   * send raises. Every pair before it sent normally.
   */
  function FirstAbort(pairs: seq<Pair>, fetches: seq<FetchOutcome>, deliveryFails: seq<bool>, ta: Indicators): (k: nat)
    requires |pairs| == |fetches| == |deliveryFails|
    ensures k <= |pairs|
    ensures k < |pairs| ==> SendRaises(k, pairs, fetches, deliveryFails, ta)
    ensures forall i :: 0 <= i < k ==> !SendRaises(i, pairs, fetches, deliveryFails, ta)
    decreases |pairs|
  {
    if pairs == [] then 0
    else if PairSignal(pairs[0], fetches[0], ta).Some? && deliveryFails[0] then 0
    else
      var k := FirstAbort(pairs[1..], fetches[1..], deliveryFails[1..], ta);
      assert forall i :: 1 <= i < k + 1 ==>
        SendRaises(i, pairs, fetches, deliveryFails, ta) == SendRaises(i - 1, pairs[1..], fetches[1..], deliveryFails[1..], ta);
      k + 1
  }

  /**
   * The abort point of a run is pinned down by its prefix: if no pair before
   * `i` raises, the run stops at `i` when `i` raises, and later otherwise.
   */
  lemma FirstAbortAt(pairs: seq<Pair>, fetches: seq<FetchOutcome>, deliveryFails: seq<bool>, ta: Indicators, i: nat)
    requires i <= |pairs| == |fetches| == |deliveryFails|
    requires forall j :: 0 <= j < i ==> !SendRaises(j, pairs, fetches, deliveryFails, ta)
    ensures i <= FirstAbort(pairs, fetches, deliveryFails, ta)
    ensures i < |pairs| && SendRaises(i, pairs, fetches, deliveryFails, ta) ==> FirstAbort(pairs, fetches, deliveryFails, ta) == i
  {
  }

  /** Scanning one more pair appends that pair's message, if it has one. */
  lemma AlertsSnoc(chatId: int, pairs: seq<Pair>, fetches: seq<FetchOutcome>, i: nat, ta: Indicators)
    requires i < |pairs| == |fetches|
    ensures Alerts(chatId, pairs[..i + 1], fetches[..i + 1], ta) ==
      Alerts(chatId, pairs[..i], fetches[..i], ta) +
      (match PairSignal(pairs[i], fetches[i], ta) case Some(s) => [Message(chatId, s)] case None => [])
  {
    assert pairs[..i + 1][..i] == pairs[..i];
    assert fetches[..i + 1][..i] == fetches[..i];
  }

  /** Scanning two lists one after the other sends the two scans' messages one after the other. */
  lemma {:induction false} AlertsAppend(chatId: int, p1: seq<Pair>, f1: seq<FetchOutcome>, p2: seq<Pair>, f2: seq<FetchOutcome>, ta: Indicators)
    requires |p1| == |f1| && |p2| == |f2|
    ensures Alerts(chatId, p1 + p2, f1 + f2, ta) == Alerts(chatId, p1, f1, ta) + Alerts(chatId, p2, f2, ta)
    decreases |p2|
  {
    if p2 == [] {
      assert p1 + p2 == p1 && f1 + f2 == f1;
    } else {
      var n := |p2| - 1;
      var m := |p1| + n;
      assert (p1 + p2)[..m] == p1 + p2[..n];
      assert (f1 + f2)[..m] == f1 + f2[..n];
      assert (p1 + p2)[m] == p2[n] && (f1 + f2)[m] == f2[n];
      AlertsAppend(chatId, p1, f1, p2[..n], f2[..n], ta);
    }
  }

  /**
   * Exactly one message per pair that yields a signal: a run sends as many
   * messages as there are signalling pairs.
   */
  lemma {:induction false} AlertsCount(chatId: int, pairs: seq<Pair>, fetches: seq<FetchOutcome>, ta: Indicators)
    requires |pairs| == |fetches|
    ensures |Alerts(chatId, pairs, fetches, ta)| == |SignallingPairs(pairs, fetches, ta)|
    decreases |pairs|
  {
    if pairs != [] {
      var n := |pairs| - 1;
      AlertsCount(chatId, pairs[..n], fetches[..n], ta);
      var before := SignallingPairs(pairs[..n], fetches[..n], ta);
      var last: set<nat> := if PairSignal(pairs[n], fetches[n], ta).Some? then {n} else {};
      assert SignallingPairs(pairs, fetches, ta) == before + last by {
        forall i: nat | i < n ensures pairs[..n][i] == pairs[i] && fetches[..n][i] == fetches[i] { }
      }
      assert n !in before;
      assert Alerts(chatId, pairs, fetches, ta) ==
        Alerts(chatId, pairs[..n], fetches[..n], ta) +
        (match PairSignal(pairs[n], fetches[n], ta) case Some(s) => [Message(chatId, s)] case None => []);
    }
  }

  /**
   * Who gets what: a message is sent by a run exactly when it is addressed
   * to `chatId` and carries the signal of some pair of the list.
   */
  lemma {:induction false} AlertsMembership(chatId: int, pairs: seq<Pair>, fetches: seq<FetchOutcome>, ta: Indicators, m: Message)
    requires |pairs| == |fetches|
    ensures m in Alerts(chatId, pairs, fetches, ta) <==>
      m.chatId == chatId && exists i :: 0 <= i < |pairs| && PairSignal(pairs[i], fetches[i], ta) == Some(m.signal)
    decreases |pairs|
  {
    if pairs != [] {
      var n := |pairs| - 1;
      AlertsMembership(chatId, pairs[..n], fetches[..n], ta, m);
      assert Alerts(chatId, pairs, fetches, ta) ==
        Alerts(chatId, pairs[..n], fetches[..n], ta) +
        (match PairSignal(pairs[n], fetches[n], ta) case Some(s) => [Message(chatId, s)] case None => []);
      if m in Alerts(chatId, pairs[..n], fetches[..n], ta) {
        var i :| 0 <= i < n && PairSignal(pairs[..n][i], fetches[..n][i], ta) == Some(m.signal);
        assert PairSignal(pairs[i], fetches[i], ta) == Some(m.signal);
      }
      if i :| 0 <= i < |pairs| && PairSignal(pairs[i], fetches[i], ta) == Some(m.signal) {
        if i < n {
          assert PairSignal(pairs[..n][i], fetches[..n][i], ta) == Some(m.signal);
        }
      }
    }
  }

  /**
   * Every message of a run goes to the registered chat and carries a LONG
   * signal for one of the scanned pairs.
   */
  lemma AlertsAddressed(chatId: int, pairs: seq<Pair>, fetches: seq<FetchOutcome>, ta: Indicators)
    requires |pairs| == |fetches|
    ensures forall m :: m in Alerts(chatId, pairs, fetches, ta) ==>
      m.chatId == chatId && m.signal.direction == Long && m.signal.pair in pairs
  {
    forall m | m in Alerts(chatId, pairs, fetches, ta)
      ensures m.chatId == chatId && m.signal.direction == Long && m.signal.pair in pairs
    {
      AlertsMembership(chatId, pairs, fetches, ta, m);
      var i :| 0 <= i < |pairs| && PairSignal(pairs[i], fetches[i], ta) == Some(m.signal);
      assert m.signal.pair == pairs[i];
    }
  }

  /**
   * A failed fetch for pair `i` only removes that pair from the run: the
   * messages for every pair before and after it are still sent, in order.
   */
  lemma FetchFailureIsolated(chatId: int, pairs: seq<Pair>, fetches: seq<FetchOutcome>, i: nat, ta: Indicators)
    requires i < |pairs| == |fetches|
    requires fetches[i].FetchError?
    ensures Alerts(chatId, pairs, fetches, ta) ==
      Alerts(chatId, pairs[..i], fetches[..i], ta) + Alerts(chatId, pairs[i + 1..], fetches[i + 1..], ta)
  {
    assert pairs == pairs[..i] + [pairs[i]] + pairs[i + 1..];
    assert fetches == fetches[..i] + [fetches[i]] + fetches[i + 1..];
    AlertsAppend(chatId, pairs[..i], fetches[..i], [pairs[i]], [fetches[i]], ta);
    assert Alerts(chatId, [pairs[i]], [fetches[i]], ta) == [] by {
      assert [pairs[i]][..0] == [];
    }
    AlertsAppend(chatId, pairs[..i] + [pairs[i]], fetches[..i] + [fetches[i]], pairs[i + 1..], fetches[i + 1..], ta);
  }

  /**
   * A caller with id 0 claims the empty slot, keeps it against every later
   * `/start`, and yet the scan's gate stays closed: no alert is ever sent.
   */
  lemma ZeroIdClaimsButNeverReceives(callers: seq<int>)
    ensures Register(None, 0).0 == Some(0)
    ensures RegisterAll(None, [0] + callers).0 == Some(0)
    ensures !Armed(RegisterAll(None, [0] + callers).0)
  {
    FirstCallerClaimsSlot([0] + callers);
  }
}
