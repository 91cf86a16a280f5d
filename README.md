# Account creation and deletion forms: state and validation model

This project models the logic inside the two forms of a small React app: the state each form keeps, the event handlers that change it, the schema each submit handler validates against, and what a submit makes observable. Each form's rules and outcomes are proved in Dafny.

- **Deletion form** (`DeleteAccount`, `delete_account.dfy`). It has a fixed catalog of five deletion reasons. A list of selected reason indices is toggled by checkbox clicks. A list copy either has the first occurrence spliced out or the index pushed at the end. There is an optional comment with an eager "too long" flag (more than 2000 characters). Submit validates `comment` (at most 2000 characters) and `selectedReasons` (at least one). It shows one error popup, 5000 ms with no confirm button, whose text is the messages joined by `", "`. Otherwise it shows one success popup, 1500 ms with no confirm button, and logs the comment and the selected reason texts in selection order.
- **Creation form** (`CreateAccount`, `create_account.dfy`). It has the fields email, password, experience and remember, plus an eager `error` flag (password shorter than 6) recomputed on every password keystroke. Submit validates four things: the email, a password of at least 6 characters, experience in `"0" "1" "2" "3" ">3"`, and a boolean remember flag. On failure it shows one "Validation Error" popup, 5000 ms with no confirm button, and logs nothing. On success it shows a loading popup (1500 ms). When that popup closes it fires the "Account created successfully" popup (1500 ms). The four fields are logged.
- **Shared pieces.** `Schema` (`schema.dfy`) holds the validation issues, their messages and the `join`. `Alerts` (`alerts.dfy`) holds the popup options record and the submit `Outcome`: `Error(issues, alerts)` or `Success(logged, alerts)`.

Each form is a class whose fields are the component's state. The handlers that change state are methods with `modifies` clauses. Submit is a method that changes nothing. Its result equals a pure function of the fields, and the lemmas are proved about that function. The email-syntax check belongs to the validation library. It is an uninterpreted parameter `isEmail: string -> bool`.

Two behaviours of the code the model keeps:
- The selected reasons are a list in click order, not a set. Clicking a selected reason twice therefore moves it to the end (`ToggleTwiceMayReorder`).
- Before any password keystroke, the creation form's inline flag is unset even though the empty password is too short. The class invariant allows exactly this pristine state.

## Model

| member | source | states |
|---|---|---|
| Schema.Messages | src/components/delete-account.tsx:52 | one message per issue, in issue order, each the message of that issue |
| Schema.JoinAgreesWithJoinFromEnd | src/components/create-account.tsx:34 | joining messages from the front equals the reference join that adds the separator and the last part at the end |
| Schema.JoinSnoc | src/components/create-account.tsx:34 | adding a part to a non-empty message list adds the separator and that part at the end of the text |
| Schema.SingleIssueText | src/components/delete-account.tsx:52 | a failure with a single issue shows exactly that issue's message, with no separator |
| DeleteAccount.IndexOf | src/components/delete-account.tsx:36 | `indexOf` on a present element gives its first position |
| DeleteAccount.ResolveReasons | src/components/delete-account.tsx:66 | the logged reasons are the selected indices mapped through the catalog, same length and same order |
| DeleteAccount.DeletionIssues | src/components/delete-account.tsx:14-17 | exactly one issue per failed rule and no other: the comment issue iff the comment exceeds 2000, the reasons issue iff fewer than 1 reason; no issue iff both rules hold |
| DeleteAccount.DeletionOutcome | src/components/delete-account.tsx:44-68 | success iff comment at most 2000 and at least one reason; error: the schema's issues and one 5000 ms error popup without confirm button whose text is the joined messages; success: one 1500 ms "Account successfully destroyed" popup without confirm button, and the logged comment and catalog texts of the selection in order |
| DeleteAccount.DeleteForm.constructor | src/components/delete-account.tsx:20-22 | the form starts with an empty comment, no error flag, no selection, and satisfies its invariant |
| DeleteAccount.DeleteForm.HandleCommentChange | src/components/delete-account.tsx:25-29 | the comment becomes the text; the flag becomes length over 2000; the selection is unchanged; the invariant is kept |
| DeleteAccount.DeleteForm.HandleReasonChange | src/components/delete-account.tsx:32-41 | the selection becomes the toggle of the old one; comment and flag unchanged; the selection stays duplicate-free and in the catalog |
| DeleteAccount.DeleteForm.HandleSubmit | src/components/delete-account.tsx:44-68 | the result is the outcome of the current comment and selection; no field changes; the inline comment error is shown iff the submit fails with the comment issue |
| DeleteAccount.ToggleAppendsAbsent | src/components/delete-account.tsx:37-39 | clicking an unselected reason keeps the existing list and appends the index at the end |
| DeleteAccount.ToggleRemovesOneOccurrence | src/components/delete-account.tsx:35-36 | clicking a selected reason removes exactly one occurrence of it and nothing else |
| DeleteAccount.ToggleRemovesPresent | src/components/delete-account.tsx:35-36 | on a duplicate-free list, clicking a selected reason gives the list without it, the rest in their original order |
| DeleteAccount.ToggleKeepsSelectionValid | src/components/delete-account.tsx:86-92 | a click from a rendered checkbox keeps the selection duplicate-free and inside the catalog |
| DeleteAccount.ToggleIsSymmetricDifference | src/components/delete-account.tsx:32-41 | on a duplicate-free list the selected set after a click is the symmetric difference with the clicked index |
| DeleteAccount.ToggleTwiceFromAbsent | src/components/delete-account.tsx:35-40 | two clicks on an unselected reason restore the exact list |
| DeleteAccount.ToggleTwiceFromPresent | src/components/delete-account.tsx:35-40 | two clicks on a selected reason restore the same elements, with that reason moved to the end |
| DeleteAccount.ToggleTwiceMayReorder | src/components/delete-account.tsx:35-40 | selecting 0 then 1 and clicking 0 twice gives [1, 0], not the original order |
| DeleteAccount.CatalogDistinct | src/components/delete-account.tsx:6-12 | the five catalog entries are pairwise distinct |
| DeleteAccount.ResolvedReasonsDistinct | src/components/delete-account.tsx:66 | a duplicate-free selection logs pairwise distinct reason texts |
| DeleteAccount.ValidationIgnoresWhichReasons | src/components/delete-account.tsx:47-48 | two selections of equal size give the same issues and the same verdict |
| DeleteAccount.NoReasonSelectedError | src/components/delete-account.tsx:48-55 | short comment and no reason: exactly one error popup, text "Array must contain at least 1 element(s)", 5000 ms, no confirm button |
| DeleteAccount.LongCommentRejected | src/components/delete-account.tsx:15 | a comment over 2000 characters fails with the comment issue, whatever reasons are selected |
| DeleteAccount.EagerAndSchemaCommentChecksAgree | src/components/delete-account.tsx:27 | the inline flag is raised iff the schema reports the comment issue |
| DeleteAccount.LongCommentScenario | src/components/delete.test.tsx:17-19 | typing a 2001-character comment raises the inline error |
| DeleteAccount.NoReasonScenario | src/components/delete.test.tsx:27-39 | typing "Test comment" and submitting with no reason gives exactly the asserted error popup |
| CreateAccount.CreationIssues | src/components/create-account.tsx:6-11 | exactly one issue per failed rule and no other: the email, password and experience issues each iff its rule fails; no issue iff all three rules hold |
| CreateAccount.CreationOutcome | src/components/create-account.tsx:28-66 | success iff email valid, password at least 6 and experience in the enumeration; error: one "Validation Error" popup, 5000 ms, no confirm button, text the joined messages, nothing logged; success: the loading popup then the "Account created successfully" popup, both 1500 ms without confirm button, and the four fields logged |
| CreateAccount.CreateForm.constructor | src/components/create-account.tsx:14-18 | every field starts empty or false and the invariant holds |
| CreateAccount.CreateForm.SetEmail | src/components/create-account.tsx:88 | the email becomes the typed value and the invariant is kept |
| CreateAccount.CreateForm.HandlePasswordChange | src/components/create-account.tsx:21-25 | the password becomes the value; the flag becomes length under 6; email, experience and remember unchanged |
| CreateAccount.CreateForm.SetExperience | src/components/create-account.tsx:125 | the experience becomes the chosen value and the invariant is kept |
| CreateAccount.CreateForm.SetRemember | src/components/create-account.tsx:145 | remember becomes the box's checked state and the invariant is kept |
| CreateAccount.CreateForm.HandleSubmit | src/components/create-account.tsx:28-66 | the result is the outcome of the current fields; on success exactly the four current fields are logged; no field changes; an inline password error means the submit fails with the password issue |
| CreateAccount.ShortPasswordRejected | src/components/create-account.tsx:8 | a password under 6 characters always fails the submit with the password issue |
| CreateAccount.UnknownExperienceRejected | src/components/create-account.tsx:9 | an experience outside "0" "1" "2" "3" ">3" always fails the submit with the enum issue |
| CreateAccount.InitialStateRejected | src/components/create-account.tsx:14-18 | the initial fields fail whatever the email check says, with both the password and the enum issue |
| CreateAccount.EagerAndSchemaPasswordChecksAgree | src/components/create-account.tsx:24 | the inline flag's rule holds iff the schema reports the password issue |
| CreateAccount.ShortPasswordScenario | src/components/create.test.tsx:17-20 | typing "123" raises the inline password error |
| CreateAccount.InitialSubmitScenario | src/components/create-account.tsx:28-45 | submitting an untouched form fails with one 5000 ms error popup |
| CreateAccount.ValidSubmissionScenario | src/components/create.test.tsx:24-35 | a valid email, "linalo", "1" and remember unchecked: no inline error, success, both success popups, the four fields logged |

## Left out

- Rendering, CSS classes, icons and the layout component that mounts the two forms side by side: no logic.
- The notification library's lifecycle and real timers. A popup is its options record. The creation form's chained popup, fired by the first popup's closing hook, is the second record of the outcome.
- `console.log` output: the logged values are returned in `Success(logged, …)`.
- `e.preventDefault()`: page navigation is not modelled.
- React state batching and stale closures: handlers are sequential method calls on the form object.
- Email syntax: the validation library's algorithm is foreign code, so `isEmail` is a parameter.
- Validation message texts: only "Array must contain at least 1 element(s)" is fixed by the tests. The other texts follow the validation library's default English messages and are not asserted anywhere in the repository.
- Issue order: issues are listed in the order of the schema's keys, the order the validation library reports them for these single-check fields.
- The `remember` boolean rule: the field is a Dafny `bool`, so that rule can never fail and produces no issue.
- String lengths count characters. The source counts UTF-16 code units, and the model does not distinguish the two.
- DeleteAccount.DeleteForm.HandleReasonChange: requires a catalog index. The handler accepts any number, but its only callers are the five rendered checkboxes.
