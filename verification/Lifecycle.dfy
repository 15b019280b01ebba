/** Work-session statuses and the table of legal moves between them. */
module Lifecycle {

  datatype Status =
    | Starting
    | Working
    | Idle
    | NeedsInput
    | AwaitingApproval
    | Interrupted
    | Completed
    | Failed
    | Cancelled

  datatype Verdict = Legal | AlreadyFinished | InvalidTransition

  predicate IsTerminal(status: Status) {
    status.Completed? || status.Failed? || status.Cancelled?
  }

  function Allowed(from: Status): set<Status> {
    match from
    case Starting => {Working, Idle, Failed, Cancelled, Interrupted}
    case Working => {Idle, NeedsInput, AwaitingApproval, Completed, Failed, Cancelled, Interrupted}
    case Idle => {Working, NeedsInput, AwaitingApproval, Completed, Failed, Cancelled, Interrupted}
    case NeedsInput => {Working, Idle, Failed, Cancelled, Interrupted}
    case AwaitingApproval => {Working, Idle, Failed, Cancelled, Interrupted}
    case Interrupted => {Working, Idle, Failed, Cancelled}
    case Completed => {}
    case Failed => {}
    case Cancelled => {}
  }

  predicate CanTransition(from: Status, to: Status) {
    from == to || to in Allowed(from)
  }

  /** What a checked status change answers: the two refusals carry different error codes. */
  function AssertTransition(from: Status, to: Status): Verdict {
    if CanTransition(from, to) then Legal
    else if IsTerminal(from) then AlreadyFinished
    else InvalidTransition
  }

  predicate AcceptsInstruction(status: Status) {
    status.Working? || status.Idle? || status.NeedsInput? || status.AwaitingApproval? || status.Interrupted?
  }

  predicate ExpectsLiveWorker(status: Status) {
    status.Starting? || status.Working? || status.Idle? || status.NeedsInput? || status.AwaitingApproval?
  }

  /** Which statuses end a session, which take an instruction and which should have a worker running. */
  lemma StatusGroups(status: Status)
    ensures IsTerminal(status) <==> status in {Completed, Failed, Cancelled}
    ensures AcceptsInstruction(status) <==> !IsTerminal(status) && status != Starting
    ensures ExpectsLiveWorker(status) <==> !IsTerminal(status) && status != Interrupted
  {
  }

  /**
   * The table of legal moves, by where they lead: a finished session moves nowhere; no session goes
   * back to starting; only one at work or idle can ask, wait for approval or complete; an interrupted
   * one resumes, fails or is cancelled; a live one can always fail, be cancelled, work or rest.
   */
  lemma MovesExactly(from: Status, to: Status)
    requires from != to
    ensures CanTransition(from, to) <==>
              && from !in {Completed, Failed, Cancelled} && to != Starting
              && (to in {NeedsInput, AwaitingApproval, Completed} ==> from in {Working, Idle})
  {
  }

  /** A refused move of a finished session is told apart from any other refused move. */
  lemma RefusalsExactly(from: Status, to: Status)
    ensures AssertTransition(from, to) == Legal <==> CanTransition(from, to)
    ensures AssertTransition(from, from) == Legal
    ensures AssertTransition(from, to) == AlreadyFinished <==> from != to && from in {Completed, Failed, Cancelled}
  {
  }

  /** A sequence of statuses in which every neighbouring pair is a legal move. */
  ghost predicate LegalPath(path: seq<Status>) {
    forall i :: 0 < i < |path| ==> CanTransition(path[i - 1], path[i])
  }

  /** Whatever legal path a session takes, it stays at the first terminal status it reaches. */
  lemma {:induction false} TerminalStatusIsFinal(path: seq<Status>, i: nat, j: nat)
    requires LegalPath(path) && i <= j < |path| && IsTerminal(path[i])
    ensures path[j] == path[i]
    decreases j
  {
    if i < j {
      TerminalStatusIsFinal(path, i, j - 1);
    }
  }
}
