/** The transition ledger of a timecard: an append-only history of status
    changes whose last entry determines the current status. */
module TransitionLedger {
  import opened Common

  datatype Status = Draft | Submitted | Cancelled | Rejected | Approved

  datatype Kind = Entered | Submittal | Cancellation | Rejection | Approval

  /** One recorded status change: what happened, who did it, when, and the
      status the timecard moved into. */
  datatype Transition = Transition(kind: Kind, actor: PersonId, occurredAt: int, to: Status)

  /** The status each kind of transition moves a timecard into. */
  function TargetOf(k: Kind): Status
  {
    match k
    case Entered => Draft
    case Submittal => Submitted
    case Cancellation => Cancelled
    case Rejection => Rejected
    case Approval => Approved
  }

  /** A transition as the controller builds it: its target follows from its kind. */
  function Record(k: Kind, actor: PersonId, now: int): Transition
  {
    Transition(k, actor, now, TargetOf(k))
  }

  /** The lifecycle graph, Draft -> Submitted -> {Approved, Rejected} and
      {Draft, Submitted} -> Cancelled, stated independently of the guards
      (which add ownership and emptiness conditions on top). Nothing leads
      back into Draft. */
  predicate Edge(from: Status, k: Kind)
  {
    match k
    case Entered => false
    case Submittal => from == Draft
    case Cancellation => from == Draft || from == Submitted
    case Rejection => from == Submitted
    case Approval => from == Submitted
  }

  predicate Terminal(s: Status)
  {
    s == Cancelled || s == Rejected || s == Approved
  }

  /** How far along the lifecycle a status is. */
  function Rank(s: Status): nat
  {
    match s
    case Draft => 0
    case Submitted => 1
    case _ => 2
  }

  /** The current status: the target of the transition appended last. */
  function Current(ts: seq<Transition>): Status
    requires |ts| > 0
  {
    ts[|ts| - 1].to
  }

  /** Appending is the ledger's only mutator: the old history is kept as a
      prefix and the new entry becomes the current status. */
  function Append(ts: seq<Transition>, t: Transition): (r: seq<Transition>)
    ensures |r| == |ts| + 1
    ensures r[..|ts|] == ts
    ensures r[|ts|] == t
    ensures Current(r) == t.to
  {
    ts + [t]
  }

  /** The ledger a timecard can reach: it opens with its Entered record, every
      target agrees with its kind, and each step follows an edge of the
      lifecycle graph from the status before it. */
  predicate WellFormedLedger(ts: seq<Transition>)
  {
    && |ts| > 0
    && ts[0].kind == Entered
    && (forall i :: 0 <= i < |ts| ==> ts[i].to == TargetOf(ts[i].kind))
    && (forall i :: 0 < i < |ts| ==> Edge(ts[i - 1].to, ts[i].kind))
  }

  /** Each edge of the lifecycle graph strictly raises the rank, and a
      terminal status has no outgoing edge. */
  lemma EdgeRaisesRank(from: Status, k: Kind)
    requires Edge(from, k)
    ensures Rank(from) < Rank(TargetOf(k))
    ensures !Terminal(from)
  {
  }

  /** Along a well-formed ledger the rank grows by at least one per entry. */
  lemma {:induction false} RankGrowth(ts: seq<Transition>, i: nat, j: nat)
    requires WellFormedLedger(ts)
    requires i <= j < |ts|
    ensures Rank(ts[j].to) >= Rank(ts[i].to) + (j - i)
    decreases j - i
  {
    if i < j {
      RankGrowth(ts, i, j - 1);
      EdgeRaisesRank(ts[j - 1].to, ts[j].kind);
    }
  }

  /** A well-formed ledger never names the same target twice, and holds at
      most three entries (Entered, then at most two steps). */
  lemma TargetsDistinct(ts: seq<Transition>)
    requires WellFormedLedger(ts)
    ensures forall i, j :: 0 <= i < j < |ts| ==> ts[i].to != ts[j].to
    ensures |ts| <= 3
  {
    forall i, j | 0 <= i < j < |ts|
      ensures ts[i].to != ts[j].to
    {
      RankGrowth(ts, i, j);
    }
    RankGrowth(ts, 0, |ts| - 1);
  }

  /** The answer of a transition query: the transitions with target s,
      ordered by descending occurrence time with a stable sort, and the first
      one taken. So it is an entry with the greatest timestamp among those
      with target s, and the earliest-appended one among ties; None exactly
      when no entry has target s. The result is an index into the ledger. */
  function LatestWithTarget(ts: seq<Transition>, s: Status): (r: Option<nat>)
    ensures r.None? <==> (forall j :: 0 <= j < |ts| ==> ts[j].to != s)
    ensures r.Some? ==> r.value < |ts| && ts[r.value].to == s
    ensures r.Some? ==> forall j :: 0 <= j < |ts| && ts[j].to == s ==> ts[j].occurredAt <= ts[r.value].occurredAt
    ensures r.Some? ==> forall j :: 0 <= j < r.value && ts[j].to == s ==> ts[j].occurredAt < ts[r.value].occurredAt
    decreases |ts|
  {
    if |ts| == 0 then None
    else
      var last := |ts| - 1;
      var earlier := LatestWithTarget(ts[..last], s);
      if ts[last].to != s then earlier
      else if earlier.Some? && ts[last].occurredAt <= ts[earlier.value].occurredAt then earlier
      else Some(last)
  }

  /** In a well-formed ledger whose current status is s, the query for s
      answers with the last entry, whatever the timestamps are. */
  lemma LatestIsLast(ts: seq<Transition>, s: Status)
    requires WellFormedLedger(ts)
    requires Current(ts) == s
    ensures LatestWithTarget(ts, s) == Some(|ts| - 1)
  {
    TargetsDistinct(ts);
  }

  /** Without well-formedness the stable sort shows through: of two entries
      with the same target and the same timestamp, the earlier one wins. */
  lemma TiesPickEarliest()
    ensures LatestWithTarget([Record(Submittal, 1, 5), Record(Submittal, 2, 5)], Submitted) == Some(0)
  {
  }
}
