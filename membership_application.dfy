/**
 * A membership application: its attributes, its lifecycle state, the applicant it belongs to,
 * the company it is linked with once accepted, and the uploaded files it owns.
 *
 * `Fire` runs one lifecycle event: it consults the transition table, leaves everything as it
 * was when the event is refused, and otherwise writes the new state and then runs the event's
 * post action (`AcceptMembership` after `accept`, `RejectMembership` after `reject`).
 */
module Applications {
  import opened Wrappers
  import opened Lifecycle
  import opened Collaborators
  import Validation

  /** What firing an event reports to its caller. */
  datatype FireOutcome =
    | Transitioned(to: State)
    | TransitionRejected(event: Event, current: State, reason: Rejection)
    /** The new state was written but the post action failed (it is not undone). */
    | SideEffectFailed(event: Event, to: State)

  class MembershipApplication {
    var firstName: string
    var lastName: string
    var companyNumber: string
    var contactEmail: string
    var state: State
    /** The applicant; an application without a linked user counts as not a member. */
    const user: User?
    var company: Company?
    var uploadedFiles: seq<UploadedFile>

    /** A new application starts in the initial state, with no company. */
    constructor (user: User?, firstName: string, lastName: string, companyNumber: string,
                 contactEmail: string, files: seq<UploadedFile>)
      ensures this.user == user && state == InitialState && company == null && uploadedFiles == files
      ensures this.firstName == firstName && this.lastName == lastName
      ensures this.companyNumber == companyNumber && this.contactEmail == contactEmail
    {
      this.user := user;
      this.firstName := firstName;
      this.lastName := lastName;
      this.companyNumber := companyNumber;
      this.contactEmail := contactEmail;
      state := InitialState;
      company := null;
      uploadedFiles := files;
    }

    /** `is_member?`: an application without a linked user is not a member; otherwise it is
        one exactly when its user is. */
    function IsMember(): (r: bool)
      reads this, user
      ensures user == null ==> !r
      ensures user != null ==> (r <==> user.isMember)
    {
      user != null && user.isMember
    }

    /** `is_accepted?`: the `state` column holds the name of the `accepted` state. */
    function IsAccepted(): (r: bool)
      reads this
      ensures r <==> StateName(state) == "accepted"
    {
      StateNameInjective(state, Accepted);
      state == Accepted
    }

    /** The attribute values the validations look at. */
    function Record(): (c: Validation.Candidate)
      reads this
      ensures c.companyNumber == companyNumber && c.contactEmail == contactEmail
      ensures c.state == StateName(state)
      ensures !Validation.IsBlank(c.state)
    {
      var name := StateName(state);
      assert !Validation.IsWhitespace(name[0]);
      Validation.Candidate(firstName, lastName, companyNumber, contactEmail, name)
    }

    /**
     * Makes the user a member, finds the company with the application's company number or
     * creates it with the application's contact e-mail, and links the application to it.
     * With no linked user the first step fails and nothing is changed.
     */
    method AcceptMembership(companies: CompanyStore) returns (ok: bool)
      requires companies.Valid()
      modifies this, user, companies
      ensures companies.Valid()
      ensures ok <==> user != null
      ensures state == old(state) && uploadedFiles == old(uploadedFiles)
      ensures firstName == old(firstName) && lastName == old(lastName)
      ensures companyNumber == old(companyNumber) && contactEmail == old(contactEmail)
      ensures !ok ==> company == old(company) && companies.byNumber == old(companies.byNumber)
      ensures ok ==> user.isMember
      ensures ok ==> companyNumber in companies.byNumber && company == companies.byNumber[companyNumber]
      ensures ok ==> company.companyNumber == companyNumber
      // an existing company with that number is reused and no second one is created
      ensures ok && companyNumber in old(companies.byNumber) ==>
        company == old(companies.byNumber[companyNumber]) && companies.byNumber == old(companies.byNumber)
      // otherwise a new one is created with the application's contact e-mail
      ensures ok && companyNumber !in old(companies.byNumber) ==>
        fresh(company) && company.email == contactEmail &&
        companies.byNumber == old(companies.byNumber)[companyNumber := company]
    {
      if user == null {
        return false;
      }
      user.isMember := true;
      var found := companies.FindByCompanyNumber(companyNumber);
      if found == null {
        found := companies.Create(companyNumber, contactEmail);
      }
      company := found;
      ok := true;
    }

    /** Clears the content of every owned file and then destroys it, one file at a time. */
    method DeleteUploadedFiles()
      modifies this`uploadedFiles, uploadedFiles
      ensures uploadedFiles == []
      ensures forall k :: 0 <= k < |old(uploadedFiles)| ==>
        old(uploadedFiles)[k].actualFile == None && old(uploadedFiles)[k].destroyed
    {
      ghost var files := uploadedFiles;
      ghost var i := 0;
      while uploadedFiles != []
        invariant 0 <= i <= |files| && uploadedFiles == files[i..]
        invariant forall k :: 0 <= k < i ==> files[k].actualFile == None && files[k].destroyed
        decreases |uploadedFiles|
      {
        var file := uploadedFiles[0];
        file.actualFile := None;
        file.Destroy();
        uploadedFiles := uploadedFiles[1..];
        i := i + 1;
      }
    }

    method RejectMembership()
      modifies this`uploadedFiles, uploadedFiles
      ensures uploadedFiles == []
      ensures forall k :: 0 <= k < |old(uploadedFiles)| ==>
        old(uploadedFiles)[k].actualFile == None && old(uploadedFiles)[k].destroyed
    {
      DeleteUploadedFiles();
    }

    /** Fires event `e`; `paid` is the value of the `paid?` guard. */
    method Fire(e: Event, paid: bool, companies: CompanyStore) returns (outcome: FireOutcome)
      requires companies.Valid()
      modifies this, user, companies, uploadedFiles
      ensures companies.Valid()
      ensures firstName == old(firstName) && lastName == old(lastName)
      ensures companyNumber == old(companyNumber) && contactEmail == old(contactEmail)
      // refused: the outcome says why, and nothing changes
      ensures var t := Transition(old(state), e, old(IsMember()), paid);
        t.Failure? ==>
          && outcome == TransitionRejected(e, old(state), t.error)
          && unchanged(this, companies) && (user != null ==> unchanged(user)) && unchanged(old(uploadedFiles))
      // allowed: the new state is written whatever the post action does
      ensures var t := Transition(old(state), e, old(IsMember()), paid);
        t.Success? ==> state == t.value
      // accept: the user becomes a member and the application is linked to its company
      ensures var t := Transition(old(state), e, old(IsMember()), paid);
        t.Success? && e == Accept ==>
          && uploadedFiles == old(uploadedFiles) && unchanged(old(uploadedFiles))
          && (user == null ==> outcome == SideEffectFailed(Accept, Accepted) &&
                               company == old(company) && companies.byNumber == old(companies.byNumber))
          && (user != null ==> outcome == Transitioned(Accepted) && user.isMember &&
                               companyNumber in companies.byNumber &&
                               company == companies.byNumber[companyNumber] &&
                               company.companyNumber == companyNumber)
          && (user != null && companyNumber in old(companies.byNumber) ==>
                company == old(companies.byNumber[companyNumber]) &&
                companies.byNumber == old(companies.byNumber))
          && (user != null && companyNumber !in old(companies.byNumber) ==>
                fresh(company) && company.email == contactEmail &&
                companies.byNumber == old(companies.byNumber)[companyNumber := company])
      // reject: every owned file had its content cleared and was destroyed; none is owned now
      ensures var t := Transition(old(state), e, old(IsMember()), paid);
        t.Success? && e == Reject ==>
          && outcome == Transitioned(Rejected)
          && uploadedFiles == []
          && (forall k :: 0 <= k < |old(uploadedFiles)| ==>
                old(uploadedFiles)[k].actualFile == None && old(uploadedFiles)[k].destroyed)
          && company == old(company) && unchanged(companies) && (user != null ==> unchanged(user))
      // the other events only change the state
      ensures var t := Transition(old(state), e, old(IsMember()), paid);
        t.Success? && e != Accept && e != Reject ==>
          && outcome == Transitioned(t.value)
          && uploadedFiles == old(uploadedFiles) && company == old(company)
          && unchanged(companies) && (user != null ==> unchanged(user)) && unchanged(old(uploadedFiles))
      // only a successful accept links the application to a company
      ensures company != old(company) ==> e == Accept && IsAccepted()
    {
      var t := Transition(state, e, IsMember(), paid);
      if t.Failure? {
        return TransitionRejected(e, state, t.error);
      }
      state := t.value;
      match Declared(e).after
      case RunAcceptMembership =>
        var ok := AcceptMembership(companies);
        outcome := if ok then Transitioned(state) else SideEffectFailed(e, state);
      case RunRejectMembership =>
        RejectMembership();
        outcome := Transitioned(state);
      case NoPostAction =>
        outcome := Transitioned(state);
    }
  }
}
