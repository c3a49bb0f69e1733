/**
 * The human approval gate `HumanApproval` (talos/security/human_check.py).
 *
 * A transfer at or above the risk threshold needs approval.  Asking for it
 * writes a PENDING record to a fixed file and then polls that file once a
 * second until an approver sets its status to APPROVED or REJECTED; a
 * missing file, any other status or a failed read just means "poll again".
 * The file system and the clock are outside the model: each poll is one
 * `Observation` of the file, and the poll loop consumes a sequence of them.
 */
module Approval {
  import opened Wrappers

  const DefaultRiskThreshold: real := 1.0

  const Pending: string := "PENDING"
  const Approved: string := "APPROVED"
  const Rejected: string := "REJECTED"

  /** The JSON object written to the pending-request file. */
  datatype ApprovalRecord = ApprovalRecord(id: int, amount: real, to: string, status: string, timestamp: string)

  /** What one poll of the pending-request file sees. */
  datatype Observation =
    | Missing                         // the file does not exist
    | Unreadable                      // opening or parsing it raised
    | Seen(status: Option<string>)    // `data.get("status")`

  /** What `os.path.exists` and `os.remove` report during `_cleanup`. */
  datatype RemoveOutcome = AlreadyAbsent | Removed | RemoveFailed

  /** The record `request_approval` writes before polling. */
  function PendingRecord(id: int, amount: real, to: string, timestamp: string): (r: ApprovalRecord)
    ensures r.status == Pending && r.amount == amount && r.to == to
  {
    ApprovalRecord(id, amount, to, Pending, timestamp)
  }

  /** An observation that ends the poll loop. */
  predicate Decisive(o: Observation)
  {
    o.Seen? && (o.status == Some(Approved) || o.status == Some(Rejected))
  }

  /** `k` is the first decisive observation of `polls`. */
  ghost predicate FirstDecisiveAt(polls: seq<Observation>, k: int)
  {
    0 <= k < |polls| && Decisive(polls[k]) && forall j | 0 <= j < k :: !Decisive(polls[j])
  }

  /**
   * The value `request_approval` returns after seeing `polls`: the verdict of
   * the first decisive observation, or None while it is still waiting.
   */
  function FirstDecision(polls: seq<Observation>): (d: Option<bool>)
    ensures d.None? <==> forall j | 0 <= j < |polls| :: !Decisive(polls[j])
    ensures d.Some? ==> exists k :: FirstDecisiveAt(polls, k) && d.value == (polls[k].status == Some(Approved))
  {
    if polls == [] then None
    else if Decisive(polls[0]) then Some(polls[0].status == Some(Approved))
    else
      var d := FirstDecision(polls[1..]);
      assert forall j | 1 <= j < |polls| :: polls[j] == polls[1..][j - 1];
      assert d.Some? ==> exists k :: FirstDecisiveAt(polls, k) && d.value == (polls[k].status == Some(Approved)) by {
        if d.Some? {
          var k :| FirstDecisiveAt(polls[1..], k) && d.value == (polls[1..][k].status == Some(Approved));
          assert FirstDecisiveAt(polls, k + 1);
        }
      }
      d
  }

  /**
   * Observations after the first decisive one are never looked at; before
   * it, any number of non-decisive ones change nothing.
   */
  lemma {:induction false} FirstDecisionOfConcat(earlier: seq<Observation>, later: seq<Observation>)
    ensures FirstDecision(earlier + later)
         == if FirstDecision(earlier).Some? then FirstDecision(earlier) else FirstDecision(later)
  {
    if earlier != [] {
      assert (earlier + later)[0] == earlier[0];
      assert (earlier + later)[1..] == earlier[1..] + later;
      FirstDecisionOfConcat(earlier[1..], later);
    } else {
      assert earlier + later == later;
    }
  }

  /** The first decisive observation alone fixes the decision. */
  lemma FirstDecisionIsFirstDecisive(polls: seq<Observation>, k: int)
    requires FirstDecisiveAt(polls, k)
    ensures FirstDecision(polls) == Some(polls[k].status == Some(Approved))
  {
  }

  /** The `while True` loop of `request_approval`, up to its first decisive observation. */
  method PollUntilResolved(polls: seq<Observation>) returns (decision: Option<bool>)
    ensures decision == FirstDecision(polls)
    ensures decision == Some(true) <==> exists k :: FirstDecisiveAt(polls, k) && polls[k].status == Some(Approved)
    ensures decision == Some(false) <==> exists k :: FirstDecisiveAt(polls, k) && polls[k].status == Some(Rejected)
  {
    var i := 0;
    while i < |polls|
      invariant 0 <= i <= |polls|
      invariant forall j | 0 <= j < i :: !Decisive(polls[j])
    {
      match polls[i] {
        case Missing =>
        case Unreadable =>
        case Seen(status) =>
          if status == Some(Approved) {
            FirstDecisionIsFirstDecisive(polls, i);
            return Some(true);
          } else if status == Some(Rejected) {
            FirstDecisionIsFirstDecisive(polls, i);
            return Some(false);
          }
      }
      i := i + 1;
    }
    decision := None;
  }

  class HumanApproval {
    const riskThreshold: real
    /** The record at the pending-request file, as far as this gate knows. */
    var pendingFile: Option<ApprovalRecord>

    constructor (riskThreshold: real)
      ensures this.riskThreshold == riskThreshold && pendingFile == None
    {
      this.riskThreshold := riskThreshold;
      pendingFile := None;
    }

    /** `HumanApproval()` with the default threshold. */
    constructor Default()
      ensures riskThreshold == DefaultRiskThreshold && pendingFile == None
    {
      riskThreshold := DefaultRiskThreshold;
      pendingFile := None;
    }

    /** `requires_approval`: the threshold itself already needs approval. */
    function RequiresApproval(amount: real): (r: bool)
      ensures r <==> amount >= riskThreshold
    {
      amount >= riskThreshold
    }

    /**
     * `request_approval`: writes the PENDING record, polls, and on a decision
     * cleans up and returns it.  None means the source would still be polling.
     */
    method RequestApproval(amount: real, to: string, id: int, timestamp: string,
                           polls: seq<Observation>, removal: RemoveOutcome)
      returns (decision: Option<bool>)
      modifies this`pendingFile
      ensures decision == FirstDecision(polls)
      ensures decision.None? ==> pendingFile == Some(PendingRecord(id, amount, to, timestamp))
      ensures decision.Some? ==>
        pendingFile == (if removal == RemoveFailed then Some(PendingRecord(id, amount, to, timestamp)) else None)
    {
      pendingFile := Some(PendingRecord(id, amount, to, timestamp));
      decision := PollUntilResolved(polls);
      if decision.Some? {
        Cleanup(removal);
      }
    }

    /** `_cleanup`: removes the file if it exists; a failed removal is swallowed. */
    method Cleanup(removal: RemoveOutcome)
      modifies this`pendingFile
      ensures pendingFile == (if removal == RemoveFailed then old(pendingFile) else None)
    {
      match removal
      case AlreadyAbsent =>
        pendingFile := None;
      case Removed =>
        pendingFile := None;
      case RemoveFailed =>
    }
  }
}
