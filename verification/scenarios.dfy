/** Worked lifecycles of one timecard, owned by worker W and reviewed by
    manager M, and the general facts they illustrate. */
module Scenarios {
  import opened Common
  import opened TransitionLedger
  import opened LineLedger
  import opened Timecards

  const W: PersonId := 1
  const M: PersonId := 2
  const Card: TimecardId := 7

  /** Eight hours on project X, recorded for W under identifier 10. */
  function EightHours(): Line
  {
    Line(10, W, 20200106, 20200106, "X", Finite(8.0), Finite(1.0), 0, 0, "", 2, 2020, Monday)
  }

  /** W's card with one line, submitted by W at time 2. */
  function SubmittedCard(): (tc: Timecard)
    ensures HasHistory(tc) && StatusOf(tc) == Submitted
    ensures tc.owner == W && tc.lines == [EightHours()]
  {
    var drafted := AddLine(Create(Card, W, 0), EightHours()).value;
    Submit(drafted, W, 2).value
  }

  /** A fresh card cannot be submitted: it has no lines. */
  lemma SubmitEmptyCard()
    ensures Submit(Create(Card, W, 0), W, 1) == Err(EmptyTimecard)
  {
  }

  /** Only the owner may submit. */
  lemma SubmitByOther()
    ensures var drafted := AddLine(Create(Card, W, 0), EightHours());
      drafted.Ok? && Submit(drafted.value, M, 2) == Err(InvalidState)
  {
  }

  /** The owner may not approve their own card. */
  lemma SelfApproval()
    ensures Approve(SubmittedCard(), W, 3) == Err(InvalidState)
  {
  }

  /** M approves; the approval query answers with M's approval, while the
      submittal query now answers MissingTransition although W's submittal
      is still in the history. */
  lemma ApprovalByManager()
    ensures var approved := Approve(SubmittedCard(), M, 3);
      && approved.Ok?
      && StatusOf(approved.value) == Approved
      && GetApproval(approved.value) == Ok(Record(Approval, M, 3))
      && Record(Submittal, W, 2) in approved.value.transitions
      && GetSubmittal(approved.value) == Err(MissingTransition)
  {
  }

  /** The work date can never be patched: on a draft the answer is NotFound
      even for an existing line, otherwise InvalidState. */
  lemma WorkDateNeverPatched(tc: Timecard, unique: LineId, raw: RawUpdate)
    requires HasHistory(tc)
    ensures UpdateLineItem(tc, unique, "workDate", raw)
              == if StatusOf(tc) == Draft then Err(NotFound) else Err(InvalidState)
  {
  }

  /** Cancelling is not idempotent: once cancelled, a second cancellation by
      anyone fails and no second Cancellation entry is recorded. */
  lemma CancelTwice(tc: Timecard, first: PersonId, second: PersonId, t1: int, t2: int)
    requires HasHistory(tc)
    ensures Cancel(tc, first, t1).Ok? ==> Cancel(Cancel(tc, first, t1).value, second, t2) == Err(InvalidState)
  {
  }

  /** EmptyTimecard is reported only from Draft: a card cancelled while still
      empty is refused with InvalidState, because the status test runs
      first. */
  lemma EmptyCancelledCardSubmit()
    ensures var cancelled := Cancel(Create(Card, W, 0), W, 1);
      && cancelled.Ok?
      && cancelled.value.lines == []
      && Submit(cancelled.value, W, 2) == Err(InvalidState)
  {
  }
}
