/**
 * Client code that uses only the contracts of `MembershipApplication`: the worked examples
 * of the lifecycle and the fact that rejecting one application leaves another one's files alone.
 */
module Scenarios {
  import opened Wrappers
  import opened Lifecycle
  import opened Collaborators
  import opened Applications

  /** Accepting a pending application creates and links its company; accepting it again is refused. */
  method AcceptTwice() {
    var user := new User(false);
    var companies := new CompanyStore();
    var app := new MembershipApplication(user, "Anna", "Svensson", "1234567890", "anna@example.se", []);
    var first := app.Fire(Accept, true, companies);
    assert first == Transitioned(Accepted);
    assert app.state == Accepted && user.isMember;
    assert app.company != null && app.company.companyNumber == "1234567890";
    assert companies.byNumber == map["1234567890" := app.company];
    var second := app.Fire(Accept, true, companies);
    assert second == TransitionRejected(Accept, Accepted, NotListed);
    assert app.state == Accepted;
  }

  /** Rejecting an application that waits for the applicant removes its three files. */
  method RejectWaitingWithThreeFiles() {
    var user := new User(false);
    var companies := new CompanyStore();
    var f1 := new UploadedFile(Some("f1"));
    var f2 := new UploadedFile(Some("f2"));
    var f3 := new UploadedFile(None);
    var app := new MembershipApplication(user, "Anna", "Svensson", "1234567890", "anna@example.se", [f1, f2, f3]);
    var asked := app.Fire(AskApplicantForInfo, true, companies);
    assert asked == Transitioned(WaitingForApplicant);
    ghost var owned := app.uploadedFiles;
    assert owned == [f1, f2, f3];
    var rejected := app.Fire(Reject, true, companies);
    assert rejected == Transitioned(Rejected);
    assert app.uploadedFiles == [];
    assert owned[0] == f1 && owned[1] == f2 && owned[2] == f3;
    assert f1.actualFile == None && f1.destroyed;
    assert f2.actualFile == None && f2.destroyed;
    assert f3.actualFile == None && f3.destroyed;
  }

  /** Rejecting `a` does not touch the files of `b` when the two own different files. */
  method RejectLeavesOtherApplicationAlone(a: MembershipApplication, b: MembershipApplication,
                                           companies: CompanyStore)
    requires companies.Valid()
    requires a.state != Rejected
    requires forall k :: 0 <= k < |b.uploadedFiles| ==> b.uploadedFiles[k] !in a.uploadedFiles
    requires a != b
    modifies a, a.user, companies, a.uploadedFiles
    ensures a.state == Rejected && a.uploadedFiles == []
    ensures b.uploadedFiles == old(b.uploadedFiles) && b.state == old(b.state)
    ensures b.company == old(b.company)
    ensures forall k :: 0 <= k < |b.uploadedFiles| ==>
      b.uploadedFiles[k].actualFile == old(b.uploadedFiles[k].actualFile) &&
      b.uploadedFiles[k].destroyed == old(b.uploadedFiles[k].destroyed)
  {
    var outcome := a.Fire(Reject, true, companies);
  }
}
