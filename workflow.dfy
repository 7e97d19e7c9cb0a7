/**
 * The order status workflow of `update_order_status` in swiggy/views.py:
 * a fixed table from a status to the single status that may follow it.
 */
module Workflow {
  import opened Wrappers
  import opened Models
  import opened Responses

  /** The status a freshly placed order is stored with by `place_order`. */
  const PLACED: string := "PLACED"

  /** The `WORKFLOW` table: each key may move only to its value. */
  const WORKFLOW: map<string, string> := map[
    PENDING := ACCEPTED,
    ACCEPTED := PREPARING,
    PREPARING := OUT_FOR_DELIVERY,
    OUT_FOR_DELIVERY := DELIVERED
  ]

  /** The one status allowed after `s`, or None when `s` has no entry in the table. */
  function Next(s: string): (r: Option<string>)
    ensures r.Some? <==> s in STATUS_CHOICES && s != DELIVERED
  {
    if s in WORKFLOW then Some(WORKFLOW[s]) else None
  }

  /**
   * The decision `update_order_status` takes for an order whose status is
   * `current` when the request asks for `requested` (None when the request
   * carries no status): the new status, or the error it replies with.
   */
  function Transition(current: string, requested: Option<string>): (r: Result<string, Error>)
    ensures r.Success? <==> Next(current).Some? && requested == Some(Next(current).value)
    ensures r.Success? ==> requested == Some(r.value)
    ensures current !in WORKFLOW ==> r == Failure(InvalidCurrentStatus)
    ensures current in WORKFLOW && requested != Some(WORKFLOW[current]) ==>
              r == Failure(InvalidStatusUpdate(WORKFLOW[current]))
  {
    match Next(current)
    case None => Failure(InvalidCurrentStatus)
    case Some(expected) =>
      if requested != Some(expected) then Failure(InvalidStatusUpdate(expected))
      else Success(expected)
  }

  /** The position of a declared status in the chain PENDING, ..., DELIVERED. */
  function Rank(s: string): (k: nat)
    requires s in STATUS_CHOICES
    ensures k < |STATUS_CHOICES| && STATUS_CHOICES[k] == s
  {
    if s == PENDING then 0
    else if s == ACCEPTED then 1
    else if s == PREPARING then 2
    else if s == OUT_FOR_DELIVERY then 3
    else 4
  }

  /**
   * The table is exactly the chain of declared statuses: `s` may move to `t`
   * if and only if `t` directly follows `s` in `STATUS_CHOICES`.
   */
  lemma NextIsChainStep(s: string, t: string)
    ensures Next(s) == Some(t) <==>
              exists k :: 0 <= k < |STATUS_CHOICES| - 1 && STATUS_CHOICES[k] == s && STATUS_CHOICES[k + 1] == t
  {
    if Next(s) == Some(t) {
      var k := Rank(s);
      assert STATUS_CHOICES[k] == s && STATUS_CHOICES[k + 1] == t;
    }
    if exists k :: 0 <= k < |STATUS_CHOICES| - 1 && STATUS_CHOICES[k] == s && STATUS_CHOICES[k + 1] == t {
      var k :| 0 <= k < |STATUS_CHOICES| - 1 && STATUS_CHOICES[k] == s && STATUS_CHOICES[k + 1] == t;
      assert k == 0 || k == 1 || k == 2 || k == 3;
    }
  }

  /** A successful update moves a status exactly one step forward, so no status is ever revisited. */
  lemma TransitionMovesForward(current: string, requested: Option<string>)
    requires Transition(current, requested).Success?
    ensures current in STATUS_CHOICES && Transition(current, requested).value in STATUS_CHOICES
    ensures Rank(Transition(current, requested).value) == Rank(current) + 1
  {
  }

  /** DELIVERED has no outgoing edge: every update of a delivered order is refused. */
  lemma DeliveredIsTerminal(requested: Option<string>)
    ensures Transition(DELIVERED, requested) == Failure(InvalidCurrentStatus)
  {
  }

  /**
   * The status `place_order` writes is neither a declared choice nor a key of
   * the table, so an order just placed can never be advanced.
   */
  lemma PlacedIsStuck(requested: Option<string>)
    ensures PLACED !in STATUS_CHOICES
    ensures Transition(PLACED, requested) == Failure(InvalidCurrentStatus)
  {
  }

  /** Starting from the default status, four accepted updates reach DELIVERED. */
  lemma DefaultStatusReachesDelivered()
    ensures Transition(DEFAULT_STATUS, Some(ACCEPTED)) == Success(ACCEPTED)
    ensures Transition(ACCEPTED, Some(PREPARING)) == Success(PREPARING)
    ensures Transition(PREPARING, Some(OUT_FOR_DELIVERY)) == Success(OUT_FOR_DELIVERY)
    ensures Transition(OUT_FOR_DELIVERY, Some(DELIVERED)) == Success(DELIVERED)
    ensures Transition(DEFAULT_STATUS, Some(PREPARING)) == Failure(InvalidStatusUpdate(ACCEPTED))
  {
  }
}
