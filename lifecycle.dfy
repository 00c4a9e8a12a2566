/**
 * The lifecycle state machine of a membership application, as declared with AASM on the
 * `state` column of `MembershipApplication`: four states, five events, and for each event
 * its legal source states, its guards, its destination and the post action run after it.
 *
 * `Declared` is the declaration table; `Transition` is the interpreter that decides one
 * event from one state; the lemmas below state, event by event, what the table allows.
 */
module Lifecycle {
  import opened Wrappers

  datatype State = Pending | WaitingForApplicant | Accepted | Rejected

  datatype Event =
    | Reject
    | Accept
    | AskApplicantForInfo
    | CancelWaitingForApplicant
    | ApplicantUpdatedInfo

  /** The guards the events use: `paid?` and `not_a_member?`. */
  datatype Guard = PaidGuard | NotAMemberGuard

  /** The `after` callback of an event. */
  datatype PostAction = NoPostAction | RunAcceptMembership | RunRejectMembership

  /** Why an event was refused: the current state is not one of its sources,
      or the first of its guards that does not hold. */
  datatype Rejection = NotListed | GuardFailed(guard: Guard)

  /** One `transitions` line of an event together with the event's `after` callback. */
  datatype EventDecl = EventDecl(from: set<State>, guards: seq<Guard>, to: State, after: PostAction)

  /** The value AASM stores in the `state` column. */
  function StateName(s: State): (name: string)
    ensures |name| > 0
  {
    match s
    case Pending => "pending"
    case WaitingForApplicant => "waiting_for_applicant"
    case Accepted => "accepted"
    case Rejected => "rejected"
  }

  /** Distinct states are stored as distinct column values. */
  lemma StateNameInjective(s: State, t: State)
    ensures StateName(s) == StateName(t) ==> s == t
  {
  }

  const InitialState: State := Pending

  /** The event table, written as the model declares it. Each post action follows exactly one
      event, every event has a source state, no event lists a guard twice, and only
      `applicant_updated_info` may lead back to the state it started from. */
  function Declared(e: Event): (d: EventDecl)
    ensures d.from != {}
    ensures d.after == RunAcceptMembership <==> e == Accept
    ensures d.after == RunRejectMembership <==> e == Reject
    ensures forall j, k :: 0 <= j < k < |d.guards| ==> d.guards[j] != d.guards[k]
    ensures d.to in d.from ==> e == ApplicantUpdatedInfo
  {
    match e
    case Reject =>
      EventDecl({Pending, WaitingForApplicant, Accepted}, [], Rejected, RunRejectMembership)
    case Accept =>
      EventDecl({Pending, Rejected}, [PaidGuard, NotAMemberGuard], Accepted, RunAcceptMembership)
    case AskApplicantForInfo =>
      EventDecl({Pending, Rejected}, [NotAMemberGuard], WaitingForApplicant, NoPostAction)
    case CancelWaitingForApplicant =>
      EventDecl({WaitingForApplicant}, [], Pending, NoPostAction)
    case ApplicantUpdatedInfo =>
      EventDecl({Accepted, Rejected, WaitingForApplicant, Pending}, [NotAMemberGuard], Pending, NoPostAction)
  }

  /** `paid?` is supplied by the caller; `not_a_member?` is the negation of `is_member?`. */
  function GuardHolds(g: Guard, isMember: bool, paid: bool): (r: bool)
    // a member passes only `paid?`
    ensures isMember && r ==> g == PaidGuard
    // an unpaid application passes only `not_a_member?`
    ensures !paid && r ==> g == NotAMemberGuard
    // a paid non-member passes every guard
    ensures paid && !isMember ==> r
  {
    match g
    case PaidGuard => paid
    case NotAMemberGuard => !isMember
  }

  /** The guards are evaluated in order and evaluation stops at the first one that fails. */
  function FirstFailing(guards: seq<Guard>, isMember: bool, paid: bool): (r: Option<nat>)
    ensures r.None? <==> forall k :: 0 <= k < |guards| ==> GuardHolds(guards[k], isMember, paid)
    ensures r.Some? ==> r.value < |guards| && !GuardHolds(guards[r.value], isMember, paid)
    ensures r.Some? ==> forall k :: 0 <= k < r.value ==> GuardHolds(guards[k], isMember, paid)
  {
    if guards == [] then None
    else if !GuardHolds(guards[0], isMember, paid) then Some(0)
    else match FirstFailing(guards[1..], isMember, paid)
      case None => None
      case Some(k) => Some(k + 1)
  }

  /** Fire event `e` from state `s`: the destination state, or why the event is refused. */
  function Transition(s: State, e: Event, isMember: bool, paid: bool): (r: Result<State, Rejection>)
    ensures r.Success? <==>
      s in Declared(e).from && forall g :: g in Declared(e).guards ==> GuardHolds(g, isMember, paid)
    ensures r.Success? ==> r.value == Declared(e).to
    ensures r == Failure(NotListed) <==> s !in Declared(e).from
    ensures r.Failure? && r.error.GuardFailed? ==>
      r.error.guard in Declared(e).guards && !GuardHolds(r.error.guard, isMember, paid)
  {
    var d := Declared(e);
    if s !in d.from then Failure(NotListed)
    else match FirstFailing(d.guards, isMember, paid)
      case None => Success(d.to)
      case Some(k) => Failure(GuardFailed(d.guards[k]))
  }

  /** `reject` succeeds from every state but `rejected` and always ends in `rejected`. */
  lemma RejectFromAnyOtherState(s: State, isMember: bool, paid: bool)
    ensures Transition(s, Reject, isMember, paid) ==
      if s == Rejected then Failure(NotListed) else Success(Rejected)
  {
  }

  /** `accept` succeeds exactly from `pending` or `rejected`, when paid and not a member;
      `paid?` is checked before `not_a_member?`. */
  lemma AcceptExactlyWhen(s: State, isMember: bool, paid: bool)
    ensures Transition(s, Accept, isMember, paid).Success? <==>
      (s == Pending || s == Rejected) && paid && !isMember
    ensures Transition(s, Accept, isMember, paid).Success? ==>
      Transition(s, Accept, isMember, paid).value == Accepted
    ensures (s == Pending || s == Rejected) && !paid ==>
      Transition(s, Accept, isMember, paid) == Failure(GuardFailed(PaidGuard))
    ensures (s == Pending || s == Rejected) && paid && isMember ==>
      Transition(s, Accept, isMember, paid) == Failure(GuardFailed(NotAMemberGuard))
  {
    var guards := Declared(Accept).guards;
    assert guards[0] == PaidGuard && guards[1] == NotAMemberGuard;
    assert PaidGuard in guards && NotAMemberGuard in guards;
  }

  /** Accepting twice is refused: `accepted` is not a source state of `accept`. */
  lemma AcceptNotReentrant(isMember: bool, paid: bool)
    ensures Transition(Accepted, Accept, isMember, paid) == Failure(NotListed)
  {
  }

  /** `ask_applicant_for_info` never succeeds for a member; when it succeeds the source
      was `pending` or `rejected` and the result is `waiting_for_applicant`. */
  lemma AskApplicantForInfoWhen(s: State, isMember: bool, paid: bool)
    ensures isMember ==> Transition(s, AskApplicantForInfo, isMember, paid).Failure?
    ensures Transition(s, AskApplicantForInfo, isMember, paid).Success? ==>
      (s == Pending || s == Rejected) &&
      Transition(s, AskApplicantForInfo, isMember, paid).value == WaitingForApplicant
    ensures (s == Pending || s == Rejected) && !isMember ==>
      Transition(s, AskApplicantForInfo, isMember, paid).Success?
  {
  }

  /** `cancel_waiting_for_applicant` is legal only from `waiting_for_applicant` and has no guard. */
  lemma CancelWaitingOnlyFromWaiting(s: State, isMember: bool, paid: bool)
    ensures Transition(s, CancelWaitingForApplicant, isMember, paid) ==
      if s == WaitingForApplicant then Success(Pending) else Failure(NotListed)
  {
  }

  /** `applicant_updated_info` returns to `pending` from every state unless the user is a member. */
  lemma ApplicantUpdatedInfoFromAnyState(s: State, isMember: bool, paid: bool)
    ensures Transition(s, ApplicantUpdatedInfo, isMember, paid) ==
      if isMember then Failure(GuardFailed(NotAMemberGuard)) else Success(Pending)
  {
  }

  /** For an applicant who is not a member (in particular one with no linked user)
      the `not_a_member?` guard never is the reason of a refusal. */
  lemma NonMemberPassesMemberGuard(s: State, e: Event, paid: bool)
    ensures Transition(s, e, false, paid) != Failure(GuardFailed(NotAMemberGuard))
  {
  }

  /** Once the user is a member, `accept`, `ask_applicant_for_info` and
      `applicant_updated_info` are refused from every state. */
  lemma MemberBlocksReentry(s: State, e: Event, paid: bool)
    requires e == Accept || e == AskApplicantForInfo || e == ApplicantUpdatedInfo
    ensures Transition(s, e, true, paid).Failure?
  {
  }

  /** No state is terminal for an applicant who is not a member: some event leaves it. */
  lemma NoTerminalStateForNonMember(s: State, paid: bool)
    ensures exists e :: Transition(s, e, false, paid).Success? && Transition(s, e, false, paid).value != s
  {
    var e := if s == Pending then Reject else ApplicantUpdatedInfo;
    assert Transition(s, e, false, paid).Success? && Transition(s, e, false, paid).value != s;
  }

  /** A rejected application whose user is a member admits no event at all. */
  lemma RejectedMemberIsStuck(e: Event, paid: bool)
    ensures Transition(Rejected, e, true, paid).Failure?
  {
  }
}
