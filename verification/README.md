# Attendance tracker front end: session, meeting form and add-members panel

This project models three small state machines from the attendance tracker's
front end. Each one is written in the source as React hooks. Here each is a set
of pure transitions over an immutable record.

- **Session** (`session.dfy`) models the authentication provider. Its state is
  the logged-in `User` plus an `isLoading` flag. A `User` is either
  `GlobalAdmin{username}` or `VerticalHead{name, roll_no, vertical, department}`.
  The module covers the start-up effect, `login`, `logout` and
  `isAuthenticated`. `Run` folds a sequence of completed handler calls.
- **MeetingForm** (`meeting_form.dfy`) models the create-meeting dialog. It has
  the ordered `validateForm` rules and the input-change, submit and close
  handlers over `{formData, loading, error}`.
- **AddMembers** (`add_members.dfy`) models the add-members panel. It has the
  input-change, file-change, single-add and Excel-upload handlers over
  `{form, file, loading, error, success}`.
- **Js** (`js.dfy`) holds the JavaScript semantics the handlers rely on:
  - string truthiness;
  - `String.prototype.trim`, with the WhiteSpace and LineTerminator code points
    of sections 12.2 and 12.3 of ECMA-262;
  - the `err.error || fallback` idiom.

No handler talks to the network in this model. The wall clock is a `now`
argument, and `new Date(text)` is a parser argument that returns `None` for an
Invalid Date. Each module reports its effects in its own shape:

- **Session**: `Login` and `Logout` take the outcome of their call as an
  argument. A login outcome is a response (status and optional body) or a bare
  throw; a logout outcome is resolved or thrown, with no payload. Each returns
  the single `ApiCall` it made. `StartupEffect` takes no outcome and returns
  no call, because it makes none.
- **MeetingForm**: `HandleSubmit` takes a create-meeting outcome: a response
  with an optional `message` and whether a `meeting` is present, or a throw
  with an optional `error` field. It returns the list of payloads sent, which
  is empty when validation stops the submit, and the list of parent callbacks
  (`onSuccess`, `onClose`) in the order they fire. `HandleInputChange` returns
  only the new state. `HandleClose` returns the new state and its callbacks.
- **AddMembers**: `HandleAddMember` and `HandleUpload` take an outcome that is
  either resolved or a throw with an optional `error` field. Each returns the
  list of calls made and a flag saying whether `onSuccess` fired. The input
  and file handlers return only the new state.

`login` returns `true` for any status-200 response with a truthy body. That
includes a vertical-lead response without `lead`, where no user is installed
(`Session.VerticalLeadLoginWithoutLead`,
`Session.LoginTrueWithoutAuthentication`). Every failure path leaves `user`
untouched (`Session.LoginFailureKeepsUser`).

## Model

| member | source | states |
|---|---|---|
| `Js.LeadingWhitespace` | attendance-trackee/src/components/MeetingForm.tsx:31 | the count `trim` strips from the front covers only whitespace and stops at the first non-whitespace character (the maximal run) |
| `Js.TrailingWhitespace` | attendance-trackee/src/components/MeetingForm.tsx:37 | the count `trim` strips from the back covers only whitespace and stops at the last non-whitespace character |
| `Js.TrimBounds` | attendance-trackee/src/components/MeetingForm.tsx:31 | `trim` cuts after the leading whitespace run and before the trailing run of the rest: both dropped parts are whitespace, and the kept part starts and ends with a non-whitespace character |
| `Js.Trim` | attendance-trackee/src/components/MeetingForm.tsx:31 | `s.trim()` is a slice `s[i..j]` whose dropped prefix `s[..i]` and suffix `s[j..]` are all whitespace; a non-empty result starts and ends with a non-whitespace character |
| `Js.TrimEmptyIffAllWhitespace` | attendance-trackee/src/components/MeetingForm.tsx:31-37 | `s.trim()` is empty exactly when every character of `s` is whitespace |
| `Js.IsBlank` | attendance-trackee/src/components/MeetingForm.tsx:37 | `!s.trim()` holds exactly when every character of `s` is whitespace |
| `Js.ErrorText` | attendance-trackee/src/components/MeetingForm.tsx:79 | the shown message is the thrown `error` field or the fallback, and it is never empty when the fallback is not |
| `Session.Initial` | attendance-trackee/src/contexts/AuthContext.tsx:21-22 | the provider starts with no user and loading raised |
| `Session.StartupEffect` | attendance-trackee/src/contexts/AuthContext.tsx:24-28 | the start-up effect lowers loading, keeps the user, and takes no API outcome because it makes no call |
| `Session.StartupResolvesUnauthenticated` | attendance-trackee/src/contexts/AuthContext.tsx:21-28 | once mounted, nobody is authenticated and nothing is loading |
| `Session.IsAuthenticated` | attendance-trackee/src/contexts/AuthContext.tsx:94 | `isAuthenticated` holds exactly when some user is installed |
| `Session.Accepted` | attendance-trackee/src/contexts/AuthContext.tsx:41 | the success test holds exactly for a response with status 200 and a truthy body, never for a thrown call |
| `Session.LoginBegin` | attendance-trackee/src/contexts/AuthContext.tsx:32 | while a login is in flight, loading is raised and the user is unchanged |
| `Session.LoginCall` | attendance-trackee/src/contexts/AuthContext.tsx:35-39 | the global-admin endpoint is called exactly for the global-admin role, with the submitted identifier and password |
| `Session.LoginEnd` | attendance-trackee/src/contexts/AuthContext.tsx:41-70 | the result is `true` exactly for a status-200 response with a truthy body; the user changes only on a `true` result; loading always ends lowered |
| `Session.Login` | attendance-trackee/src/contexts/AuthContext.tsx:30-71 | on every path, including a thrown call, loading is false afterwards and the call matches the role |
| `Session.GlobalAdminLoginInstallsIdentifier` | attendance-trackee/src/contexts/AuthContext.tsx:41-48 | an accepted global-admin login installs `GlobalAdmin{username = submitted identifier}`, authenticates, and returns `true` |
| `Session.VerticalLeadLoginCopiesLead` | attendance-trackee/src/contexts/AuthContext.tsx:50-62 | an accepted vertical-lead login with a `lead` installs a `VerticalHead` with the lead's four fields and returns `true` |
| `Session.VerticalLeadLoginWithoutLead` | attendance-trackee/src/contexts/AuthContext.tsx:49-62 | an accepted vertical-lead login without a `lead` returns `true` and leaves the user as it was |
| `Session.LoginTrueWithoutAuthentication` | attendance-trackee/src/contexts/AuthContext.tsx:51-62 | a `true` login result does not imply that anyone is authenticated |
| `Session.LoginFailureKeepsUser` | attendance-trackee/src/contexts/AuthContext.tsx:64-70 | a non-200 status, a falsy body or a thrown error returns `false` and changes nothing but the loading flag |
| `Session.LoginAuthenticatesIff` | attendance-trackee/src/contexts/AuthContext.tsx:41-63 | after a login someone is authenticated exactly when someone already was, or the login was accepted and was a global-admin login or carried `lead` |
| `Session.Logout` | attendance-trackee/src/contexts/AuthContext.tsx:73-87 | the global-admin endpoint is called exactly when the current user is a global admin, otherwise the vertical-lead one; afterwards nobody is authenticated and nothing is loading, whether or not the call threw |
| `Session.LogoutWithoutUserUsesVerticalLead` | attendance-trackee/src/contexts/AuthContext.tsx:76-80 | with no user set, logout calls the vertical-lead endpoint |
| `Session.RunUserProvenance` | attendance-trackee/src/contexts/AuthContext.tsx:41-86 | after any sequence of completed handlers from the mounted provider, the logged-in user was named by an accepted login in that sequence, with no logout after it |
| `MeetingForm.Set` | attendance-trackee/src/components/MeetingForm.tsx:22-25 | writing a field makes it read back as the written value and leaves the other fields as they were |
| `MeetingForm.HandleInputChange` | attendance-trackee/src/components/MeetingForm.tsx:20-28 | input change updates only the named field, clears the error and keeps loading |
| `MeetingForm.InputChangeSameValue` | attendance-trackee/src/components/MeetingForm.tsx:20-28 | retyping a field's current value changes nothing but the error |
| `MeetingForm.IsPast` | attendance-trackee/src/components/MeetingForm.tsx:42-44 | the date counts as past exactly when it parses to an instant before `now`; an Invalid Date is never past |
| `MeetingForm.ValidateForm` | attendance-trackee/src/components/MeetingForm.tsx:30-49 | every message the validator returns is one of its four rule messages |
| `MeetingForm.FirstFailure` | attendance-trackee/src/components/MeetingForm.tsx:30-48 | over an ordered rule list: no message exactly when every rule passes, and otherwise the message of a failing rule that all earlier rules passed |
| `MeetingForm.ValidateIsFirstFailure` | attendance-trackee/src/components/MeetingForm.tsx:30-48 | the validator returns the first failing rule's message, in the order name, date, agenda, past date |
| `MeetingForm.ValidateNoneIff` | attendance-trackee/src/components/MeetingForm.tsx:30-48 | the validator returns null exactly when the name and agenda are not all whitespace, the date is non-empty and the parsed date is not before `now` |
| `MeetingForm.EmptyFormRejected` | attendance-trackee/src/components/MeetingForm.tsx:31-33 | the reset form is rejected with "Meeting name is required" |
| `MeetingForm.HandleSubmit` | attendance-trackee/src/components/MeetingForm.tsx:51-83 | create-meeting is called, with the current form, exactly when the validator passes; loading is false after every call; callbacks fire only after a call that reset the form |
| `MeetingForm.SubmitInvalid` | attendance-trackee/src/components/MeetingForm.tsx:53-59 | on a validation failure the error is that message, no call is made, and loading and the form are unchanged |
| `MeetingForm.SubmitCreated` | attendance-trackee/src/components/MeetingForm.tsx:65-73 | a response with a message and a meeting resets the form, clears the error, and fires `onSuccess` then `onClose` |
| `MeetingForm.SubmitFailed` | attendance-trackee/src/components/MeetingForm.tsx:74-82 | otherwise the form is kept, with "Failed to create meeting" for an incomplete response, or the thrown `error` field, or "Failed to create meeting. Please try again." |
| `MeetingForm.SubmitShowsErrorUnlessSuccess` | attendance-trackee/src/components/MeetingForm.tsx:51-83 | after a submit, an error is showing exactly when no callback fired |
| `MeetingForm.ResubmitAfterSuccessRejected` | attendance-trackee/src/components/MeetingForm.tsx:65-71 | `handleSubmit`, run again on the reset form, makes no call and sets the error to "Meeting name is required" |
| `MeetingForm.HandleClose` | attendance-trackee/src/components/MeetingForm.tsx:85-95 | close is a no-op while loading; otherwise it resets the form, clears the error and fires `onClose` |
| `MeetingForm.CloseIdempotent` | attendance-trackee/src/components/MeetingForm.tsx:85-95 | closing twice leaves the same state as closing once |
| `MeetingForm.CloseRestoresInitial` | attendance-trackee/src/components/MeetingForm.tsx:12-18 | closing an idle dialog restores the state it was first rendered in |
| `AddMembers.Set` | attendance-trackee/src/components/AddMembers.tsx:23 | the written field reads back as the input's string, including `year`, and the other fields are unchanged |
| `AddMembers.HandleInputChange` | attendance-trackee/src/components/AddMembers.tsx:21-26 | input change updates only the named field and clears both messages |
| `AddMembers.HandleFileChange` | attendance-trackee/src/components/AddMembers.tsx:28-34 | with no file picked nothing changes; otherwise the first file is held and both messages clear |
| `AddMembers.SubmitBegin` | attendance-trackee/src/components/AddMembers.tsx:38-40 | before either call, loading is raised and both messages are cleared |
| `AddMembers.HandleAddMember` | attendance-trackee/src/components/AddMembers.tsx:36-51 | the form is sent; on success "Member added successfully!", the default form and `onSuccess`; on failure a non-empty error and the form kept; loading false either way |
| `AddMembers.HandleUpload` | attendance-trackee/src/components/AddMembers.tsx:53-74 | with no file: "Please select an Excel file.", no call, loading untouched; with a file: it is sent, success shows "Members added successfully!" and clears the file, loading ends false |
| `AddMembers.FailureMessages` | attendance-trackee/src/components/AddMembers.tsx:46-70 | a failure shows the thrown `error` field, or else "Failed to add member." or "Failed to upload members." |
| `AddMembers.FailedUploadKeepsFile` | attendance-trackee/src/components/AddMembers.tsx:69-73 | a failed upload keeps the picked file and shows no success |
| `AddMembers.RunNeverLeavesLoading` | attendance-trackee/src/components/AddMembers.tsx:21-74 | from an idle panel, no sequence of completed actions leaves it loading |
| `AddMembers.AtMostOneMessage` | attendance-trackee/src/components/AddMembers.tsx:21-74 | every action except an upload with no file keeps at most one of error and success showing |
| `AddMembers.UploadAgainShowsBothMessages` | attendance-trackee/src/components/AddMembers.tsx:55-67 | pressing upload again after a successful upload shows the "select a file" error beside the earlier success message |

## Left out

- Rendering, CSS classes, the spinner and the drag-and-drop wiring are left out as presentation. The drop handler only forwards to `handleFileChange` when not loading.
- The page components (`GlobalAdminDashboard.tsx`, `AddMembersPage.tsx`, `UnauthorizedPage.tsx`) only render and call `logout` or navigate, so they are not modelled.
- React plumbing is left out: context creation, `useState` and `useEffect`. The `useAuth` guard for use outside a provider is a framework check.
- The API module is not part of this model. Its calls are abstract outcomes. A login body is reduced to whether it is truthy and to its optional `lead`. A create-meeting response is reduced to its `message` and whether a `meeting` is present.
- Date parsing and the clock are abstracted. `new Date(text)` is a parser argument, and an Invalid Date compares false, as in JavaScript. The current time is an integer `now`.
- Overlapping async handlers are not modelled. Each handler is atomic. `login` is split into its in-flight half `Session.LoginBegin` and its completed half `Session.LoginEnd`, and AddMembers exposes `AddMembers.SubmitBegin`, the in-flight step its add and upload share. Logout and the meeting submit are single steps.
- Console logging is left out.
- Native constraint validation in front of the two submit handlers is not modelled. The rendered inputs carry HTML `required`, and `year` also has `min`/`max`, so a browser does not dispatch `submit` while a field is empty. The lemmas describe `handleSubmit` and `handleAddMember` when they are invoked. Some of their branches, such as "Date and time are required" or a resubmit of the just-reset meeting form, are therefore not reachable from the rendered dialog.
- A thrown value that is `null` or `undefined` is not modelled; the source would fault when it reads `err.error`. A thrown `error` field is modelled as an optional string.
- Input events are limited to the `name` attributes the forms actually render. An unknown name, which would add a new key to the form object, is not modelled.
- Attendance-summary aggregation and lead-roster normalisation are not in these source files, so they are not modelled.
