# Membership application lifecycle — a Dafny model

This project models the core of `MembershipApplication`, the record an applicant submits to
become a member: its lifecycle state machine (states `pending`, `waiting_for_applicant`,
`accepted`, `rejected` and the events `reject`, `accept`, `ask_applicant_for_info`,
`cancel_waiting_for_applicant`, `applicant_updated_info`), the post actions that run after
`accept` and `reject`, and the field validations.

Files and modules:

- `wrappers.dfy` (`Wrappers`): `Option` and `Result`.
- `lifecycle.dfy` (`Lifecycle`): the event table `Declared` (source states, guards in order,
  destination, post action of each event), the interpreter `Transition` from
  (state, event, is-member, paid) to the new state or a `Rejection`, and one lemma per event.
- `email_format.dfy` (`EmailFormat`): the strings the contact e-mail pattern generates
  (`EmailShape`), and the character-level recogniser `IsEmail`. The recogniser's contract
  says it accepts exactly those strings.
- `validation.dfy` (`Validation`): `Validate`, the field -> messages map of a record's errors.
  The organisation-number checksum is a parameter `isValidOrgNumber: string -> bool`.
- `collaborators.dfy` (`Collaborators`): `User` (membership flag), `Company`, `CompanyStore`
  (companies keyed by company number, lookup and create) and `UploadedFile` (content
  reference and destroyed flag).
- `membership_application.dfy` (`Applications`): the `MembershipApplication` class with
  `Fire`, `AcceptMembership`, `RejectMembership` and `DeleteUploadedFiles`.
- `scenarios.dfy` (`Scenarios`): client methods that use only those contracts. They cover
  accepting twice, rejecting an application that owns three files, and rejecting one
  application while another keeps its files.

The `paid?` guard is a parameter of `Fire`: the source's `paid?` always returns true, and its
outstanding-charge check is commented out. An application whose `user` is null counts as
not a member, because `is_member?` is `user && user.is_member?`. `accept` is therefore
allowed for it, but then `accept_membership` fails at `user.update`. The model reports this
as `SideEffectFailed`; the state stays `accepted` and nothing else changes.

Three points of the code worth stating:

- The company link is set only through `Fire(Accept)`. `accept_membership` itself is public
  and has no precondition on the state. So "company is set only once accepted" is stated
  about `Fire`, not as an invariant of the class.
- When an event is refused because of a guard, only the first failing guard is reported.
  The guards of `accept` are evaluated in order, `paid?` then `not_a_member?`, and
  evaluation stops at the first false one.
- The format validation is declared `on: [:create, :update]`. Those two contexts are the
  ones every save uses, so the model always applies it.

## Model

| member | source | states |
|---|---|---|
| Lifecycle.StateName | app/models/membership_application.rb:25-28 | the value stored in the `state` column for each state is never empty |
| Lifecycle.StateNameInjective | app/models/membership_application.rb:23-28 | the four states are stored under four distinct `state` column values |
| Lifecycle.Declared | app/models/membership_application.rb:31-56 | the event table. `accept_membership` runs after `accept` only, and `reject_membership` after `reject` only. Every event has a source state, and no event lists a guard twice. Only `applicant_updated_info` may end in the state it started from |
| Lifecycle.GuardHolds | app/models/membership_application.rb:71-80 | `paid?` and `not_a_member?`: a member passes only `paid?`, an unpaid application passes only `not_a_member?`, and a paid non-member passes both |
| Lifecycle.FirstFailing | app/models/membership_application.rb:43 | guards are checked in order; no failing guard iff all hold; otherwise the result is the first guard that fails, and all guards before it hold |
| Lifecycle.Transition | app/models/membership_application.rb:23-58 | an event succeeds iff the state is one of its declared sources and all its guards hold; it then yields the declared destination. It is refused as not listed iff the state is not a source. A refusal by guard names a declared guard that fails |
| Lifecycle.RejectFromAnyOtherState | app/models/membership_application.rb:31-36 | `reject` yields `rejected` from pending, waiting_for_applicant and accepted, whatever the guards; it is refused (not listed) from `rejected` |
| Lifecycle.AcceptExactlyWhen | app/models/membership_application.rb:38-44 | `accept` succeeds iff the state is pending or rejected, paid and not a member, and then yields `accepted`. From those states it fails on `paid?` when unpaid, and on `not_a_member?` when paid and a member |
| Lifecycle.AcceptNotReentrant | app/models/membership_application.rb:42-43 | `accept` from `accepted` is refused as not listed |
| Lifecycle.AskApplicantForInfoWhen | app/models/membership_application.rb:46-48 | `ask_applicant_for_info` never succeeds for a member. When it succeeds, the source was pending or rejected and the result is `waiting_for_applicant`. From those sources it succeeds for a non-member |
| Lifecycle.CancelWaitingOnlyFromWaiting | app/models/membership_application.rb:50-52 | `cancel_waiting_for_applicant` yields `pending` from `waiting_for_applicant` and is refused (not listed) from every other state |
| Lifecycle.ApplicantUpdatedInfoFromAnyState | app/models/membership_application.rb:54-56 | `applicant_updated_info` yields `pending` from each of the four states for a non-member; for a member it fails on `not_a_member?` |
| Lifecycle.NonMemberPassesMemberGuard | app/models/membership_application.rb:78-85 | for a non-member (an application without a user included) no event is refused because of `not_a_member?` |
| Lifecycle.MemberBlocksReentry | app/models/membership_application.rb:38-56 | once the user is a member, `accept`, `ask_applicant_for_info` and `applicant_updated_info` are refused from every state |
| Lifecycle.NoTerminalStateForNonMember | app/models/membership_application.rb:25-56 | for a non-member every state has an event that leads to a different state |
| Lifecycle.RejectedMemberIsStuck | app/models/membership_application.rb:31-56 | a `rejected` application whose user is a member admits no event |
| EmailFormat.ShapeSplits | app/models/membership_application.rb:15 | a domain of the pattern begins with its first label and the first dot; after the dot comes the top-level label or again a domain of the pattern |
| EmailFormat.BuildShape | app/models/membership_application.rb:15 | a label and a dot in front of a top-level label, or in front of a domain of the pattern, form a domain of the pattern |
| EmailFormat.DomainStep | app/models/membership_application.rb:15 | a string without a dot is no domain of the pattern. Otherwise it is one iff the part before its first dot is a label, and the rest is a top-level label or again a domain |
| EmailFormat.EmailStep | app/models/membership_application.rb:15 | a string without `@` is no address. Otherwise it is one iff the part before its first `@` is a local part and the rest is a domain of the pattern |
| EmailFormat.IsDomain | app/models/membership_application.rb:15 | accepts exactly the domains the pattern generates: one or more labels of letters, digits and hyphens, each followed by a dot, then a top-level label of two or more letters |
| EmailFormat.IsEmail | app/models/membership_application.rb:15 | accepts exactly the addresses the pattern generates: a non-empty local part without `@` or white space, then `@`, then a domain of the pattern |
| Validation.OrgNumberMessageDistinct | app/models/membership_application.rb:61-63 | the organisation-number message starts with the company number and differs from the blank, length and format messages |
| Validation.IsBlank | app/models/membership_application.rb:8-12 | a value is blank (the presence check fails) iff every character of it is white space, the empty value included |
| Validation.Messages | app/models/membership_application.rb:8-16 | on one field: the blank message appears iff the value is blank; the length message iff it is the company number and its length is not 10; the format message iff it is the e-mail and it does not match; the organisation-number message iff it is the company number and the predicate fails. Every message is justified by its rule |
| Validation.Validate | app/models/membership_application.rb:8-16 | one iff per rule: each blank field among the five has an error on that field; a company number whose length is not 10 has the length error; an e-mail that does not match has the format error; a failing organisation number has its own company-number error. No field is listed without messages, every message names a rule its field breaks, and the map is empty iff every rule holds |
| Collaborators.CompanyStore.FindByCompanyNumber | app/models/membership_application.rb:92 | returns the company filed under the number, or null iff there is none |
| Collaborators.CompanyStore.Create | app/models/membership_application.rb:93-94 | a fresh company with the given number and e-mail is filed under that number; every other entry is unchanged |
| Collaborators.UploadedFile.Destroy | app/models/membership_application.rb:115-116 | a record is destroyed only after its content reference was cleared; afterwards it is destroyed and holds no content |
| Applications.MembershipApplication.constructor | app/models/membership_application.rb:25 | a new application is `pending`, has no company and owns the given files |
| Applications.MembershipApplication.IsMember | app/models/membership_application.rb:83-85 | an application without a linked user is not a member; with a user it is a member exactly when the user is |
| Applications.MembershipApplication.IsAccepted | app/models/membership_application.rb:66-68 | holds exactly when the `state` column holds `accepted` |
| Applications.MembershipApplication.Record | app/models/membership_application.rb:12 | the record validated carries the stored state name, which is never blank |
| Applications.MembershipApplication.AcceptMembership | app/models/membership_application.rb:88-103 | fails iff there is no user, and then nothing changes. State, names, numbers and owned files never change. Otherwise: the user is a member; the store holds a company under the application's number and the application is linked to it; an existing company is reused and the store is unchanged; if there was none, exactly one fresh company with the contact e-mail is added |
| Applications.MembershipApplication.DeleteUploadedFiles | app/models/membership_application.rb:113-120 | each owned file has its content cleared, then is destroyed and dropped from the application, one at a time. Afterwards the application owns no files and every file it owned has no content and is destroyed |
| Applications.MembershipApplication.RejectMembership | app/models/membership_application.rb:106-108 | same effect as deleting the uploaded files |
| Applications.MembershipApplication.Fire | app/models/membership_application.rb:23-58 | a refused event reports the event, the current state and the reason, and changes nothing. An allowed event writes the table's destination. After `accept` the effects of `AcceptMembership` hold, or `SideEffectFailed` with no user, and the owned files are untouched. After `reject` the effects of `RejectMembership` hold. Other events change only the state. Names and numbers never change. Only a successful accept changes the company link, and then the application is accepted |
| Scenarios.RejectLeavesOtherApplicationAlone | app/models/membership_application.rb:106-120 | rejecting an application, from any state `reject` is allowed in, leaves another application's state, company, file list and files unchanged when the two own different files |

## Left out

- Persistence: `save`, `update`, `create!` and the database query behind
  `find_by_company_number` are modelled as updates of in-memory objects. A `save` or `update`
  that returns false on an invalid record is not modelled. Neither is the logging and
  re-raising of exceptions (lines 99-102), except that a missing user is reported as
  `SideEffectFailed`.
- Associations mechanics (lines 2-6), the business-categories association and nested
  attribute writes for uploaded files (line 18): the application simply holds `user`,
  `company` and `uploadedFiles` fields.
- The AASM library: only the table it is given and its order of evaluation (sources, then
  guards in order, then the state write, then the `after` callback) are modelled.
- The Swedish organisation-number checksum (line 62) is a foreign library, so it is the
  parameter `isValidOrgNumber`.
- `paid?` (lines 71-74) is the `paid` parameter of `Fire`, because its real rule is disabled in
  the source.
- Collaborators.CompanyStore.Create: the store is keyed by number, so it cannot hold two
  companies with one number. A table without a uniqueness constraint could, but
  `AcceptMembership` creates a company only after the lookup found none.
- EmailFormat.IsEmail: the case-insensitive letter class is ASCII only. Unicode case folding
  of `[a-z]` (which would also admit a few non-ASCII letters) is not modelled.
- Applications.MembershipApplication.AcceptMembership: a failure to create the company is not
  modelled; in the source it would leave the user a member without a linked company.
- Field edits between transitions and the `on: [:create, :update]` context distinction are not
  modelled; validation is a pure function of the current attribute values.
- Collaborators.UploadedFile.Destroy: requires the content reference to be cleared first. An
  ActiveRecord `destroy` does not demand this; the model uses it to check the clearing order
  that `DeleteUploadedFiles`, its only caller, follows.
- Storage of the attachment behind `actual_file` is a content reference only. Clearing it
  stands for deleting the stored content.
- Concurrency: every operation runs alone on its objects.
