/** Publishing one work item's milestones to its external item, which people edit by hand at any time, over requests that
    can be lost or cut short. */
module AdoProgress {
  import opened Wrappers

  type Id = string

  datatype MilestoneKind = Start | Handoff | Blocker | Recovery | PullRequest | Deployment | Acceptance

  datatype EvidenceKind =
    | Source | Implementation | AutomatedTest | HandoffEvidence | BlockerEvidence | RecoveryEvidence | PullRequestEvidence
    | DeploymentEvidence | AcceptanceEvidence | OwnerReview

  const PREDECESSOR := map["Active" := "New", "Resolved" := "Active", "Closed" := "Resolved"]

  /** The state a milestone asks for; an acceptance without both of its kinds of evidence is refused. */
  function TargetState(kind: MilestoneKind, evidence: set<EvidenceKind>): Option<Option<string>> {
    match kind
    case Start => Some(Some("Active"))
    case PullRequest => Some(if {Implementation, AutomatedTest} <= evidence then Some("Resolved") else None)
    case Deployment => Some(if {Implementation, AutomatedTest} <= evidence then Some("Resolved") else None)
    case Acceptance => if {AcceptanceEvidence, OwnerReview} <= evidence then Some(Some("Closed")) else None
    case _ => Some(None)
  }

  /** What a milestone says; its fingerprint is an injective digest of it, so it stands for the fingerprint. */
  datatype Payload = Payload(
    milestone: Id, sequence: nat, kind: MilestoneKind, summary: string, evidence: set<EvidenceKind>, nextAction: string
  )

  datatype Disposition = NotRequested | AlreadyCurrent | Updated | PreservedManual

  datatype MilestoneStatus =
    | Pending
    | Published(disposition: Disposition, revision: nat, state: string)
    | Suppressed

  datatype Milestone = Milestone(payload: Payload, target: Option<string>, status: MilestoneStatus)

  datatype OperationStatus = Open | Succeeded(revision: nat) | Conflicted(revision: nat)

  /** A state update, kept under the milestone's fingerprint. */
  datatype Operation = Operation(requested: string, expected: string, status: OperationStatus)

  /** What happens around the next request or transaction: people edit the item, and then the request is answered, is
      carried out but its answer is lost, is not carried out, or the process dies with it. */
  datatype Delivery = Answered | Lost | Unavailable | Dies

  datatype Signal = Signal(edits: seq<string>, delivery: Delivery)

  /** `Stale` is the service's refusal of a patch whose revision test failed. */
  datatype Outcome<+T> = Returned(value: T) | Stale | Refused | Crashed

  // ---- What holds throughout ----

  /** A state change this publisher made: at the revision it had read, the item was in the predecessor state. */
  datatype Change = Change(target: string, read: nat)

  ghost predicate ChangeOk(states: seq<string>, change: Change) {
    && change.target in PREDECESSOR && change.read + 1 < |states|
    && states[change.read] == PREDECESSOR[change.target] && states[change.read + 1] == change.target
  }

  ghost predicate ChangesOk(states: seq<string>, changes: seq<Change>) {
    forall c | c in changes :: ChangeOk(states, c)
  }

  /** Every revision was made by hand or is one of the publisher's changes. */
  ghost predicate Accounted(states: seq<string>, changes: seq<Change>, byHand: seq<bool>) {
    && |byHand| == |states|
    && forall r | 0 < r < |states| && !byHand[r] :: exists c :: c in changes && c.read + 1 == r
  }

  lemma EditsAccounted(states: seq<string>, edits: seq<string>, changes: seq<Change>, byHand: seq<bool>)
    requires Accounted(states, changes, byHand)
    ensures Accounted(states + edits, changes, byHand + seq(|edits|, _ => true))
  {}

  lemma ChangeAccounted(states: seq<string>, change: Change, changes: seq<Change>, byHand: seq<bool>)
    requires Accounted(states, changes, byHand) && change.read + 1 == |states|
    ensures Accounted(states + [change.target], changes + [change], byHand + [false])
  {
    var all, hands := changes + [change], byHand + [false];
    assert all[|changes|] == change;
    forall r | 0 < r < |states + [change.target]| && !hands[r] ensures exists c :: c in all && c.read + 1 == r {
      if r < |states| {
        var c :| c in changes && c.read + 1 == r;
        assert c in all;
      } else {
        assert change in all;
      }
    }
  }

  ghost predicate Was(states: seq<string>, revision: nat, state: string) {
    revision < |states| && states[revision] == state
  }

  ghost predicate OperationOk(states: seq<string>, operation: Operation) {
    && operation.requested in PREDECESSOR && operation.expected == PREDECESSOR[operation.requested]
    && (operation.status.Succeeded? ==> Was(states, operation.status.revision, operation.requested))
  }

  ghost predicate OperationsOk(states: seq<string>, operations: map<Payload, Operation>, milestones: map<Id, Milestone>) {
    forall p | p in operations ::
      && OperationOk(states, operations[p]) && p.milestone in milestones
      && milestones[p.milestone].payload == p && milestones[p.milestone].target == Some(operations[p].requested)
  }

  /** What a published milestone records of the item was true at the revision it records. */
  ghost predicate MilestoneOk(states: seq<string>, milestone: Milestone) {
    && (milestone.target.Some? ==> milestone.target.value in PREDECESSOR)
    && (milestone.status.Published? ==>
          var s := milestone.status;
          && Was(states, s.revision, s.state)
          && match s.disposition
             case NotRequested => milestone.target.None?
             case AlreadyCurrent => milestone.target == Some(s.state)
             case Updated => milestone.target == Some(s.state)
             case PreservedManual => milestone.target.Some? && milestone.target != Some(s.state))
  }

  ghost predicate MilestonesOk(states: seq<string>, milestones: map<Id, Milestone>) {
    && (forall m | m in milestones :: milestones[m].payload.milestone == m && MilestoneOk(states, milestones[m]))
    && (forall m, n | m in milestones && n in milestones && m != n ::
          milestones[m].payload.sequence != milestones[n].payload.sequence)
    && (forall m, n | m in milestones && n in milestones && m != n && milestones[m].status.Pending? ::
          milestones[n].payload.sequence < milestones[m].payload.sequence)
  }

  /** `released` lists the sequences published so far, in the order they were. */
  ghost predicate ReleasedOk(milestones: map<Id, Milestone>, released: seq<nat>) {
    && (forall i, j | 0 <= i < j < |released| :: released[i] < released[j])
    && (forall m | m in milestones && milestones[m].status.Published? :: milestones[m].payload.sequence in released)
    && (forall q | q in released ::
          exists m :: m in milestones && milestones[m].payload.sequence == q && milestones[m].status.Published?)
  }

  lemma HistoryKeeps(
    states: seq<string>, more: seq<string>, changes: seq<Change>, operations: map<Payload, Operation>,
    milestones: map<Id, Milestone>
  )
    requires ChangesOk(states, changes) && OperationsOk(states, operations, milestones) && MilestonesOk(states, milestones)
    ensures var after := states + more;
      ChangesOk(after, changes) && OperationsOk(after, operations, milestones) && MilestonesOk(after, milestones)
  {
    var after := states + more;
    forall c | c in changes ensures ChangeOk(after, c) {
      assert ChangeOk(states, c);
    }
    forall p | p in operations ensures OperationOk(after, operations[p]) {
      assert OperationOk(states, operations[p]);
    }
    forall m | m in milestones ensures MilestoneOk(after, milestones[m]) {
      assert MilestoneOk(states, milestones[m]);
    }
  }

  // ---- The consequences ----

  /** At most one milestone is pending, and it has the largest sequence. */
  lemma OnePendingAndLast(states: seq<string>, milestones: map<Id, Milestone>, m: Id, n: Id)
    requires MilestonesOk(states, milestones) && m in milestones && n in milestones && milestones[m].status.Pending?
    ensures m != n ==> !milestones[n].status.Pending? && milestones[n].payload.sequence < milestones[m].payload.sequence
  {}

  /** A start asks for Active; a pull request or a deployment for Resolved, if it has both kinds of evidence; an acceptance
      for Closed, with its evidence and the owner's review, and without them it is refused. Nothing else asks for a state. */
  lemma ClosedNeedsReview(kind: MilestoneKind, evidence: set<EvidenceKind>)
    ensures TargetState(kind, evidence) == Some(Some("Active")) <==> kind == Start
    ensures TargetState(kind, evidence) == Some(Some("Resolved")) <==>
              (kind == PullRequest || kind == Deployment) && Implementation in evidence && AutomatedTest in evidence
    ensures TargetState(kind, evidence) == Some(Some("Closed")) <==>
              kind == Acceptance && AcceptanceEvidence in evidence && OwnerReview in evidence
    ensures TargetState(kind, evidence).None? <==>
              kind == Acceptance && !(AcceptanceEvidence in evidence && OwnerReview in evidence)
    ensures forall target :: TargetState(kind, evidence) == Some(Some(target)) ==> target in PREDECESSOR
  {
    assert "Active"[0] != "Resolved"[0] && "Active"[0] != "Closed"[0] && "Resolved"[0] != "Closed"[0];
  }

  /** The publisher only ever moves the item one step along, never back and never over a step: a chain of its changes
      with no edit between them climbs the four states in order. */
  lemma ChangesClimb(states: seq<string>, changes: seq<Change>, a: Change, b: Change)
    requires ChangesOk(states, changes) && a in changes && b in changes && b.read == a.read + 1
    ensures PREDECESSOR[b.target] == a.target && (a.target == "Active" || a.target == "Resolved")
  {
    assert ChangeOk(states, a) && ChangeOk(states, b);
  }
}
