/**
 * The grammar of a bridge run's event trace, and the fact that a trace of
 * that grammar holds exactly one terminal event, right before
 * `bridge-settled`.
 */
module TraceGrammar {
  import opened BridgeTypes

  /** The events that end a run's work: exactly one of them precedes `bridge-settled`. */
  predicate IsTerminal(e: BridgeEvent) {
    || e.BridgeFailedValidation?
    || e.UserRejectedTokenApproval? || e.TokenApprovalFailed? || e.TokenApprovalReverted?
    || e.UserRejectedBridge? || e.BridgeFailed?
    || e.BridgeTransactionSucceeded? || e.BridgeTransactionReverted?
    || e.UnexpectedError?
  }

  predicate IsApprovalEvent(e: BridgeEvent) {
    || e.PreApprove? || e.UserRejectedTokenApproval? || e.UserSignedTokenApproval?
    || e.TokenApprovalFailed? || e.TokenApprovalReverted? || e.TokenApprovalSucceeded?
  }

  /** The one-event trace of `e`'s terminal events. */
  function Kept(e: BridgeEvent): seq<BridgeEvent> {
    if IsTerminal(e) then [e] else []
  }

  /** The terminal events of a trace, in order. */
  function Terminals(t: seq<BridgeEvent>): (r: seq<BridgeEvent>)
    ensures |r| <= |t|
  {
    if t == [] then [] else Kept(t[0]) + Terminals(t[1..])
  }

  lemma {:induction false} TerminalsAppend(a: seq<BridgeEvent>, b: seq<BridgeEvent>)
    ensures Terminals(a + b) == Terminals(a) + Terminals(b)
  {
    if a == [] {
      assert a + b == b;
    } else {
      calc {
        Terminals(a + b);
        Kept(a[0]) + Terminals((a + b)[1..]);
        { assert (a + b)[1..] == a[1..] + b; }
        Kept(a[0]) + Terminals(a[1..] + b);
        { TerminalsAppend(a[1..], b); }
        Kept(a[0]) + (Terminals(a[1..]) + Terminals(b));
        (Kept(a[0]) + Terminals(a[1..])) + Terminals(b);
      }
    }
  }

  lemma TerminalsOfOne(m: seq<BridgeEvent>)
    requires |m| == 1
    ensures Terminals(m) == Kept(m[0])
  {
    assert m[1..] == [];
  }

  lemma TerminalsOfTwo(m: seq<BridgeEvent>)
    requires |m| == 2
    ensures Terminals(m) == Kept(m[0]) + Kept(m[1])
  {
    TerminalsOfOne(m[1..]);
  }

  lemma TerminalsOfThree(m: seq<BridgeEvent>)
    requires |m| == 3
    ensures Terminals(m) == Kept(m[0]) + Kept(m[1]) + Kept(m[2])
  {
    TerminalsOfTwo(m[1..]);
  }

  // The grammar of a run's events.

  /** An approval that ends the run: refused, failed while waiting, or reverted. */
  predicate ApprovalRefused(m: seq<BridgeEvent>) {
    || (|m| == 2 && m[0] == PreApprove && m[1].UserRejectedTokenApproval?)
    || (|m| == 3 && m[0] == PreApprove && m[1].UserSignedTokenApproval?
        && (m[2].TokenApprovalFailed? || (m[2].TokenApprovalReverted? && m[2].receipt.status == Reverted)))
  }

  /** An approval that lets the run go on: signed, then mined with status success. */
  predicate ApprovalGranted(m: seq<BridgeEvent>) {
    && |m| == 3 && m[0] == PreApprove && m[1].UserSignedTokenApproval?
    && m[2].TokenApprovalSucceeded? && m[2].receipt.status == Success
  }

  /** How the run ends once it stops or gets past the approval: as the sending half ends it, or by a throw. */
  predicate Outcome(m: seq<BridgeEvent>) {
    SendOutcome(m) || (|m| == 1 && m[0].UnexpectedError?)
  }

  /** How the sending half ends the run: a fee shortfall, a refused send, or a signed send and its fate. */
  predicate SendOutcome(m: seq<BridgeEvent>) {
    || (|m| == 1 && (m[0].BridgeFailedValidation? || m[0].UserRejectedBridge?))
    || (|m| == 2 && m[0].UserSignedBridge?
        && (|| m[1].BridgeFailed?
            || (m[1].BridgeTransactionSucceeded? && m[1].receipt.status == Success)
            || (m[1].BridgeTransactionReverted? && m[1].receipt.status == Reverted)))
  }

  /** The events between `pre-bridge` and `bridge-settled`. */
  predicate RunBody(m: seq<BridgeEvent>) {
    || ApprovalRefused(m)
    || Outcome(m)
    || (|m| >= 3 && ApprovalGranted(m[..3]) && Outcome(m[3..]))
  }

  /**
   * A run's events: a validation failure alone, or `pre-bridge`, a body and
   * `bridge-settled`.
   */
  predicate WellFormedRun(t: seq<BridgeEvent>) {
    || (|t| == 1 && t[0].BridgeFailedValidation?)
    || (|t| >= 3 && t[0] == PreBridge && t[|t| - 1] == BridgeSettled && RunBody(t[1..|t| - 1]))
  }

  /** No `pre-bridge` and no `bridge-settled` event in `m`. */
  predicate NoBoundary(m: seq<BridgeEvent>) {
    forall i :: 0 <= i < |m| ==> !m[i].PreBridge? && !m[i].BridgeSettled?
  }

  /** The terminal events of an outcome: its last event. */
  lemma OutcomeHasOneTerminal(o: seq<BridgeEvent>)
    requires Outcome(o)
    ensures Terminals(o) == [o[|o| - 1]] && IsTerminal(o[|o| - 1])
    ensures NoBoundary(o)
  {
    if |o| == 1 {
      assert IsTerminal(o[0]);
      TerminalsOfOne(o);
    } else {
      assert !IsTerminal(o[0]) && IsTerminal(o[1]);
      TerminalsOfTwo(o);
    }
  }

  /** The terminal events of an approval that ends the run: its last event. */
  lemma RefusalHasOneTerminal(m: seq<BridgeEvent>)
    requires ApprovalRefused(m)
    ensures Terminals(m) == [m[|m| - 1]] && IsTerminal(m[|m| - 1])
    ensures NoBoundary(m)
  {
    if |m| == 2 {
      assert !IsTerminal(m[0]) && IsTerminal(m[1]);
      TerminalsOfTwo(m);
    } else {
      assert !IsTerminal(m[0]) && !IsTerminal(m[1]) && IsTerminal(m[2]);
      TerminalsOfThree(m);
    }
  }

  /** A granted approval holds no terminal event. */
  lemma GrantHasNoTerminal(g: seq<BridgeEvent>)
    requires ApprovalGranted(g)
    ensures Terminals(g) == []
    ensures NoBoundary(g)
  {
    assert !IsTerminal(g[0]) && !IsTerminal(g[1]) && !IsTerminal(g[2]);
    TerminalsOfThree(g);
  }

  /** A granted approval followed by an outcome: the outcome's last event is the only terminal one. */
  lemma GrantThenOutcomeHasOneTerminal(g: seq<BridgeEvent>, o: seq<BridgeEvent>)
    requires ApprovalGranted(g) && Outcome(o)
    ensures Terminals(g + o) == [o[|o| - 1]] && IsTerminal(o[|o| - 1])
    ensures NoBoundary(g + o)
  {
    GrantHasNoTerminal(g);
    OutcomeHasOneTerminal(o);
    TerminalsAppend(g, o);
  }

  /** A body holds exactly one terminal event, as its last event, and no `pre-bridge` or `bridge-settled`. */
  lemma RunBodyHasOneTerminal(m: seq<BridgeEvent>)
    requires RunBody(m)
    ensures |m| >= 1 && Terminals(m) == [m[|m| - 1]] && IsTerminal(m[|m| - 1])
    ensures NoBoundary(m)
  {
    if ApprovalRefused(m) {
      RefusalHasOneTerminal(m);
    } else if Outcome(m) {
      OutcomeHasOneTerminal(m);
    } else {
      GrantedBodyHasOneTerminal(m);
    }
  }

  /** The body of a run whose approval was granted. */
  lemma GrantedBodyHasOneTerminal(m: seq<BridgeEvent>)
    requires |m| >= 3 && ApprovalGranted(m[..3]) && Outcome(m[3..])
    ensures |m| >= 1 && Terminals(m) == [m[|m| - 1]] && IsTerminal(m[|m| - 1])
    ensures NoBoundary(m)
  {
    assert m == m[..3] + m[3..];
    GrantThenOutcomeHasOneTerminal(m[..3], m[3..]);
  }

  /** Framing a body with `pre-bridge` and `bridge-settled` adds no terminal event. */
  lemma FramedTerminals(m: seq<BridgeEvent>)
    ensures Terminals([PreBridge] + m + [BridgeSettled]) == Terminals(m)
  {
    TerminalsAppend([PreBridge] + m, [BridgeSettled]);
    TerminalsAppend([PreBridge], m);
    TerminalsOfOne([PreBridge]);
    TerminalsOfOne([BridgeSettled]);
  }

  /** A framed body: its terminal event is the one before `bridge-settled`, and the frame occurs only at the ends. */
  lemma FramedBody(t: seq<BridgeEvent>, m: seq<BridgeEvent>)
    requires |t| >= 3 && t[0] == PreBridge && t[|t| - 1] == BridgeSettled && m == t[1..|t| - 1]
    requires |m| >= 1 && Terminals(m) == [m[|m| - 1]] && NoBoundary(m)
    ensures Terminals(t) == [t[|t| - 2]]
    ensures forall i :: 0 < i < |t| - 1 ==> !t[i].PreBridge? && !t[i].BridgeSettled?
  {
    assert t == [PreBridge] + m + [BridgeSettled];
    FramedTerminals(m);
    forall i | 0 < i < |t| - 1
      ensures !t[i].PreBridge? && !t[i].BridgeSettled?
    {
      assert t[i] == m[i - 1];
    }
  }

  /**
   * In a well-formed run `bridge-settled` occurs at most once, exactly once
   * after `pre-bridge`, and exactly one terminal event occurs, right before
   * `bridge-settled` (or alone, on the validation-failure path).
   */
  lemma WellFormedRunHasOneTerminal(t: seq<BridgeEvent>)
    requires WellFormedRun(t)
    ensures |Terminals(t)| == 1
    ensures t[0].PreBridge? ==>
              && |t| >= 3 && IsTerminal(t[|t| - 2]) && t[|t| - 1].BridgeSettled?
              && forall i :: 0 < i < |t| - 1 ==> !t[i].PreBridge? && !t[i].BridgeSettled?
    ensures !t[0].PreBridge? ==> t == Terminals(t) && |t| == 1 && !t[0].BridgeSettled?
  {
    if |t| == 1 {
      TerminalsOfOne(t);
    } else {
      var m := t[1..|t| - 1];
      RunBodyHasOneTerminal(m);
      FramedBody(t, m);
    }
  }

  /** An outcome holds no approval event. */
  lemma OutcomeHasNoApproval(o: seq<BridgeEvent>)
    requires Outcome(o)
    ensures forall i :: 0 <= i < |o| ==> !IsApprovalEvent(o[i])
  {
  }

  /**
   * Approval events come right after `pre-bridge`, in the order
   * `pre-approve`, then rejected or signed, then failed, reverted or
   * succeeded; only a granted approval is followed by further events.
   */
  lemma ApprovalEventsFollowPreBridge(t: seq<BridgeEvent>, k: nat)
    requires WellFormedRun(t) && k < |t| && IsApprovalEvent(t[k])
    ensures |t| >= 4 && t[1] == PreApprove
    ensures ApprovalRefused(t[1..|t| - 1]) || ApprovalGranted(t[1..4])
  {
    var m := t[1..|t| - 1];
    assert |t| >= 3;
    if !ApprovalRefused(m) && Outcome(m) {
      OutcomeHasNoApproval(m);
      assert false;
    } else if !ApprovalRefused(m) {
      assert t[1..4] == m[..3];
    }
  }
}
