/**
 The wait for the query to finish (infrastructure/lambda_function.py, lines 80-86).

 The engine's answers to successive get_query_execution calls are given as a
 finite sequence of replies. The loop keeps polling while the state is RUNNING
 or QUEUED and stops at the first reply in any other state; it has no wait
 budget, so when every given reply is transient the real loop would go on
 polling.
 */
module Poll {
  import opened Wrappers

  /** One get_query_execution answer: Status.State and, if present, Status.StateChangeReason. */
  datatype Reply = Reply(state: string, stateChangeReason: Option<string>)

  const Running: string := "RUNNING"
  const Queued: string := "QUEUED"
  const Succeeded: string := "SUCCEEDED"
  const Failed: string := "FAILED"
  const Cancelled: string := "CANCELLED"

  /** Line 81: the states in which the loop polls again. */
  predicate Transient(state: string)
  {
    state == Running || state == Queued
  }

  /** The index of the reply the loop stops at: the first one whose state is not transient,
      or None when every reply is transient. */
  function FirstSettled(replies: seq<Reply>): (r: Option<nat>)
    ensures r.Some? ==> r.value < |replies| && !Transient(replies[r.value].state)
    ensures r.Some? ==> forall j :: 0 <= j < r.value ==> Transient(replies[j].state)
    ensures r.None? <==> forall j :: 0 <= j < |replies| ==> Transient(replies[j].state)
    decreases |replies|
  {
    if |replies| == 0 then None
    else if !Transient(replies[0].state) then Some(0)
    else
      match FirstSettled(replies[1..])
      case None => None
      case Some(i) => Some(i + 1)
  }

  /** The loop stops at the same reply whatever the engine would have answered afterwards. */
  lemma {:induction false} FirstSettledIgnoresLater(replies: seq<Reply>, later: seq<Reply>)
    requires FirstSettled(replies).Some?
    ensures FirstSettled(replies + later) == FirstSettled(replies)
    decreases |replies|
  {
    assert (replies + later)[0] == replies[0];
    if Transient(replies[0].state) {
      assert (replies + later)[1..] == replies[1..] + later;
      FirstSettledIgnoresLater(replies[1..], later);
    }
  }

  /** Any index meeting FirstSettled's description is the one it returns. */
  lemma FirstSettledUnique(replies: seq<Reply>, i: nat)
    requires i < |replies| && !Transient(replies[i].state)
    requires forall j :: 0 <= j < i ==> Transient(replies[j].state)
    ensures FirstSettled(replies) == Some(i)
  {
  }

  /** Lines 80-86 as written: starts from status RUNNING, polls once per iteration, and
      leaves on a terminal state (the `break`) or on any other non-transient state (the
      loop condition). Returns how many status queries were issued. */
  method PollUntilSettled(replies: seq<Reply>) returns (polls: nat)
    requires exists k :: 0 <= k < |replies| && !Transient(replies[k].state)
    ensures 1 <= polls <= |replies|
    ensures !Transient(replies[polls - 1].state)
    ensures forall j :: 0 <= j < polls - 1 ==> Transient(replies[j].state)
  {
    ghost var k :| 0 <= k < |replies| && !Transient(replies[k].state);
    var status := Running;
    polls := 0;
    while status == Running || status == Queued
      invariant polls <= k + 1
      invariant polls == 0 ==> status == Running
      invariant polls > 0 ==> status == replies[polls - 1].state
      invariant forall j :: 0 <= j < polls - 1 ==> Transient(replies[j].state)
      invariant polls > 0 && Transient(status) ==> Transient(replies[polls - 1].state) && polls <= k
      decreases k + 1 - polls
    {
      status := replies[polls].state;
      polls := polls + 1;
      if status == Succeeded || status == Failed || status == Cancelled {
        break;
      }
    }
    assert polls > 0;
  }

  /** The loop of lines 80-86 stops at the reply FirstSettled names, so the handler's
      use of FirstSettled describes the loop as written. */
  method PollAgreesWithFirstSettled(replies: seq<Reply>) returns (polls: nat)
    requires exists k :: 0 <= k < |replies| && !Transient(replies[k].state)
    ensures 1 <= polls <= |replies|
    ensures FirstSettled(replies) == Some(polls - 1)
  {
    polls := PollUntilSettled(replies);
    FirstSettledUnique(replies, polls - 1);
  }
}
