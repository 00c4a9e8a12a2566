/**
 * The field validations of a membership application: presence of five attributes, a company
 * number of exactly ten characters, the contact e-mail format, and the Swedish organisation
 * number rule. The result is the field -> messages map of the record's errors; fields without
 * errors are absent from it.
 *
 * The organisation-number checksum belongs to a separate library, so the validator receives it
 * as the predicate `isValidOrgNumber`.
 */
module Validation {
  import EmailFormat

  datatype Field = FirstName | LastName | CompanyNumber | ContactEmail | StateColumn

  const AllFields: set<Field> := {FirstName, LastName, CompanyNumber, ContactEmail, StateColumn}

  /** The attribute values the validations look at; `state` is the raw column value. */
  datatype Candidate = Candidate(
    firstName: string,
    lastName: string,
    companyNumber: string,
    contactEmail: string,
    state: string)

  const CompanyNumberLength: nat := 10

  const BlankMessage: string := "can't be blank"
  const WrongLengthMessage: string := "is the wrong length (should be 10 characters)"
  const InvalidMessage: string := "is invalid"

  function OrgNumberMessage(companyNumber: string): string {
    companyNumber + " \U{E4}r inte ett svenskt organisationsnummer"
  }

  /** Unicode white space, the characters a blank value may consist of. */
  predicate IsWhitespace(c: char) {
    c == ' ' || ('\t' <= c <= '\r') || c == '\U{85}' || c == '\U{A0}' || c == '\U{1680}' ||
    ('\U{2000}' <= c <= '\U{200A}') || c == '\U{2028}' || c == '\U{2029}' || c == '\U{202F}' ||
    c == '\U{205F}' || c == '\U{3000}'
  }

  /** A value is blank when the whole of it matches `[[:space:]]*`: it is empty or consists
      of white space only. */
  function IsBlank(s: string): (r: bool)
    ensures r <==> forall i :: 0 <= i < |s| ==> IsWhitespace(s[i])
  {
    s == [] || (IsWhitespace(s[0]) && IsBlank(s[1..]))
  }

  function Value(c: Candidate, f: Field): string {
    match f
    case FirstName => c.firstName
    case LastName => c.lastName
    case CompanyNumber => c.companyNumber
    case ContactEmail => c.contactEmail
    case StateColumn => c.state
  }

  /** The rule a message stands for holds of its field. */
  ghost predicate Justified(c: Candidate, f: Field, m: string, isValidOrgNumber: string -> bool) {
    || (m == BlankMessage && IsBlank(Value(c, f)))
    || (f == CompanyNumber && m == WrongLengthMessage && |c.companyNumber| != CompanyNumberLength)
    || (f == ContactEmail && m == InvalidMessage && !EmailFormat.IsEmail(c.contactEmail))
    || (f == CompanyNumber && m == OrgNumberMessage(c.companyNumber) && !isValidOrgNumber(c.companyNumber))
  }

  /** Every rule holds. */
  ghost predicate Passes(c: Candidate, isValidOrgNumber: string -> bool) {
    && (forall f :: f in AllFields ==> !IsBlank(Value(c, f)))
    && |c.companyNumber| == CompanyNumberLength
    && EmailFormat.IsEmail(c.contactEmail)
    && isValidOrgNumber(c.companyNumber)
  }

  /** The organisation-number message quotes the number and differs from every other message. */
  lemma OrgNumberMessageDistinct(companyNumber: string)
    ensures OrgNumberMessage(companyNumber)[..|companyNumber|] == companyNumber
    ensures OrgNumberMessage(companyNumber) != WrongLengthMessage
    ensures OrgNumberMessage(companyNumber) != BlankMessage
    ensures OrgNumberMessage(companyNumber) != InvalidMessage
  {
  }

  /** The messages of one field, in the order the validations are declared: each message
      appears exactly when its rule fails on this field, and each names a rule that fails. */
  function Messages(c: Candidate, f: Field, isValidOrgNumber: string -> bool): (ms: seq<string>)
    ensures BlankMessage in ms <==> IsBlank(Value(c, f))
    ensures WrongLengthMessage in ms <==> f == CompanyNumber && |c.companyNumber| != CompanyNumberLength
    ensures InvalidMessage in ms <==> f == ContactEmail && !EmailFormat.IsEmail(c.contactEmail)
    ensures OrgNumberMessage(c.companyNumber) in ms <==>
      f == CompanyNumber && !isValidOrgNumber(c.companyNumber)
    ensures forall k :: 0 <= k < |ms| ==> Justified(c, f, ms[k], isValidOrgNumber)
  {
    OrgNumberMessageDistinct(c.companyNumber);
    assert |BlankMessage| != |WrongLengthMessage| && |BlankMessage| != |InvalidMessage|;
    assert |WrongLengthMessage| != |InvalidMessage|;
    var blank := if IsBlank(Value(c, f)) then [BlankMessage] else [];
    var length := if f == CompanyNumber && |c.companyNumber| != CompanyNumberLength then [WrongLengthMessage] else [];
    var format := if f == ContactEmail && !EmailFormat.IsEmail(c.contactEmail) then [InvalidMessage] else [];
    var org := if f == CompanyNumber && !isValidOrgNumber(c.companyNumber) then [OrgNumberMessage(c.companyNumber)] else [];
    var ms := blank + length + format + org;
    assert forall m :: m in ms <==> m in blank || m in length || m in format || m in org;
    assert forall k :: 0 <= k < |ms| ==> Justified(c, f, ms[k], isValidOrgNumber) by {
      forall k | 0 <= k < |ms| ensures Justified(c, f, ms[k], isValidOrgNumber) {
        assert ms[k] in ms;
      }
    }
    ms
  }

  function Validate(c: Candidate, isValidOrgNumber: string -> bool): (errors: map<Field, seq<string>>)
    // presence: a blank field carries the blank message, and only a blank one does
    ensures forall f :: f in AllFields ==>
      (IsBlank(Value(c, f)) <==> f in errors && BlankMessage in errors[f])
    // length of the company number
    ensures |c.companyNumber| != CompanyNumberLength <==>
      CompanyNumber in errors && WrongLengthMessage in errors[CompanyNumber]
    // e-mail format
    ensures !EmailFormat.IsEmail(c.contactEmail) <==>
      ContactEmail in errors && InvalidMessage in errors[ContactEmail]
    // organisation number: its own message on the company number, quoting the number
    ensures !isValidOrgNumber(c.companyNumber) <==>
      CompanyNumber in errors && OrgNumberMessage(c.companyNumber) in errors[CompanyNumber]
    // no field is listed without a message, and every message names a rule its field breaks
    ensures forall f :: f in errors ==> f in AllFields && errors[f] != []
    ensures forall f :: f in errors ==>
      forall k :: 0 <= k < |errors[f]| ==> Justified(c, f, errors[f][k], isValidOrgNumber)
    // the record is valid exactly when every rule holds
    ensures errors == map[] <==> Passes(c, isValidOrgNumber)
  {
    map f | f in AllFields && Messages(c, f, isValidOrgNumber) != [] :: Messages(c, f, isValidOrgNumber)
  }
}
