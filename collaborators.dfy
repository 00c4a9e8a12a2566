/**
 * The records a membership application acts on: the applicant's user account, the company
 * table (looked up by company number) and the uploaded files that hold stored documents.
 * Persistence is not modelled: each record is an object whose fields hold what the
 * database would hold.
 */
module Collaborators {
  import opened Wrappers

  /** The applicant's account; only its membership flag matters here. */
  class User {
    var isMember: bool

    constructor (isMember: bool)
      ensures this.isMember == isMember
    {
      this.isMember := isMember;
    }
  }

  /** A company record, identified by its organisation number. */
  class Company {
    const companyNumber: string
    const email: string

    constructor (companyNumber: string, email: string)
      ensures this.companyNumber == companyNumber && this.email == email
    {
      this.companyNumber := companyNumber;
      this.email := email;
    }
  }

  /** The company table, keyed by company number. */
  class CompanyStore {
    var byNumber: map<string, Company>

    /** Every company is filed under its own number. */
    ghost predicate Valid()
      reads this
    {
      forall n :: n in byNumber ==> byNumber[n].companyNumber == n
    }

    constructor ()
      ensures Valid() && byNumber == map[]
    {
      byNumber := map[];
    }

    /** The company with number `n`, or null when there is none. */
    method FindByCompanyNumber(n: string) returns (c: Company?)
      requires Valid()
      ensures c != null <==> n in byNumber
      ensures c != null ==> c == byNumber[n] && c.companyNumber == n
    {
      c := if n in byNumber then byNumber[n] else null;
    }

    /** Inserts a new company with number `n` and e-mail `email`. */
    method Create(n: string, email: string) returns (c: Company)
      requires Valid()
      modifies this
      ensures Valid() && fresh(c)
      ensures c.companyNumber == n && c.email == email
      ensures byNumber == old(byNumber)[n := c]
    {
      c := new Company(n, email);
      byNumber := byNumber[n := c];
    }
  }

  /** A reference to stored binary content (the attachment behind an uploaded file). */
  type ContentRef = string

  /** An uploaded file record owned by an application. */
  class UploadedFile {
    var actualFile: Option<ContentRef>
    var destroyed: bool

    constructor (content: Option<ContentRef>)
      ensures actualFile == content && !destroyed
    {
      actualFile := content;
      destroyed := false;
    }

    /** Deletes the record. Its content reference must have been cleared first, so that no
        stored content is left behind without a record. */
    method Destroy()
      requires actualFile == None
      modifies this
      ensures destroyed && actualFile == None
    {
      destroyed := true;
    }
  }
}
