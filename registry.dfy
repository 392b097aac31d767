/**
 * The single-slot subscriber registry behind the `/start` command: the slot
 * starts empty, the first caller claims it, and nothing ever empties it again.
 */
module Registry {
  import opened Wrappers

  /** The three distinct answers `/start` gives. */
  datatype Reply = Registered | AlreadyHere | OtherUser

  /**
   * One `/start` from `caller` against slot `target`: the new slot and the reply.
   * An empty slot is claimed by the caller; a set slot never changes; the
   * caller holds the slot afterwards exactly when it was not rejected.
   */
  function Register(target: Option<int>, caller: int): (r: (Option<int>, Reply))
    ensures r.0.Some?
    ensures target.Some? ==> r.0 == target
    ensures r.1 == Registered <==> target.None?
    ensures r.1 == AlreadyHere <==> target == Some(caller)
    ensures r.1 == OtherUser <==> target.Some? && target.value != caller
    ensures r.0 == Some(caller) <==> r.1 != OtherUser
  {
    if target.None? then (Some(caller), Registered)
    else if target.value == caller then (target, AlreadyHere)
    else (target, OtherUser)
  }

  /** A run of `/start` commands, in arrival order: the final slot and every reply. */
  function RegisterAll(target: Option<int>, callers: seq<int>): (Option<int>, seq<Reply>)
    decreases |callers|
  {
    if callers == [] then (target, [])
    else
      var (next, reply) := Register(target, callers[0]);
      var (last, replies) := RegisterAll(next, callers[1..]);
      (last, [reply] + replies)
  }

  /**
   * Once the slot holds `holder`, any sequence of `/start` commands leaves it
   * holding `holder`; each caller equal to `holder` is told it is already
   * registered and every other caller is rejected.
   */
  lemma {:induction false} HeldSlotIsStable(holder: int, callers: seq<int>)
    ensures RegisterAll(Some(holder), callers).0 == Some(holder)
    ensures |RegisterAll(Some(holder), callers).1| == |callers|
    ensures forall k :: 0 <= k < |callers| ==>
      RegisterAll(Some(holder), callers).1[k] == (if callers[k] == holder then AlreadyHere else OtherUser)
    decreases |callers|
  {
    if callers != [] {
      HeldSlotIsStable(holder, callers[1..]);
      var replies := RegisterAll(Some(holder), callers).1;
      var rest := RegisterAll(Some(holder), callers[1..]).1;
      assert replies == [Register(Some(holder), callers[0]).1] + rest;
      forall k | 0 <= k < |callers|
        ensures replies[k] == (if callers[k] == holder then AlreadyHere else OtherUser)
      {
        if k > 0 {
          assert replies[k] == rest[k - 1];
          assert callers[k] == callers[1..][k - 1];
        }
      }
    }
  }

  /**
   * From the empty slot, the first caller of a non-empty run claims the slot
   * for good: it alone is told it was registered, later calls from the same id
   * are acknowledged, and all other ids are rejected.
   */
  lemma FirstCallerClaimsSlot(callers: seq<int>)
    requires callers != []
    ensures RegisterAll(None, callers).0 == Some(callers[0])
    ensures |RegisterAll(None, callers).1| == |callers|
    ensures RegisterAll(None, callers).1[0] == Registered
    ensures forall k :: 1 <= k < |callers| ==>
      RegisterAll(None, callers).1[k] == (if callers[k] == callers[0] then AlreadyHere else OtherUser)
  {
    var rest := callers[1..];
    HeldSlotIsStable(callers[0], rest);
    forall k | 1 <= k < |callers|
      ensures RegisterAll(None, callers).1[k] == (if callers[k] == callers[0] then AlreadyHere else OtherUser)
    {
      assert callers[k] == rest[k - 1];
    }
  }

  /** The slot, once set by any sequence of commands, is never empty again. */
  lemma {:induction false} NeverUnset(target: Option<int>, callers: seq<int>)
    requires target.Some? || callers != []
    ensures RegisterAll(target, callers).0.Some?
  {
    if target.Some? {
      HeldSlotIsStable(target.value, callers);
    } else {
      FirstCallerClaimsSlot(callers);
    }
  }
}
