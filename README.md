# Inspection app core in Dafny

A model of the logic inside a React Native quality-inspection app. The model covers:

- the five-step inspection wizard, with its step gates;
- the checklist question editor, with its ordered save rules;
- the submit routing, which saves remotely or falls back to an offline sync queue;
- the sync queue itself;
- the mock authentication service, with its phone and email rules and a token/user session;
- the login and OTP screens;
- the to-do list and the inspection list;
- the annotation canvas;
- the searchable select modal;
- the select and radio form controls;
- the toast state;
- the constant data the screens start from.

Wherever the source holds state in cells that its handlers reassign, the model uses a class: React `useState` cells, and the module-level `let` cells of the auth service. Each handler becomes a method whose `ensures` gives the new state as a function of the old one. Filters, maps and finds of the source become recursive functions, and the properties the app relies on are proved about them as lemmas.

Modules and files:

- `Js` (js.dfy) holds the JavaScript built-ins the core uses:
  - `trim` and the regular-expression class `\s`, both over the ECMAScript whitespace set (WhiteSpace and LineTerminator, including U+00A0, U+2000 to U+200A, U+3000 and U+FEFF);
  - `toLowerCase` on ASCII;
  - `includes`, the non-digit strip `replace(/\D/g, "")`, `join`, `filter`;
  - decimal `toString`.
- `Questions` (questions.dfy) holds the checklist question and the editor's rules.
- `Data` (data.dfy) holds the constants.
- `Sync` (sync.dfy) is the queue.
- `InspectionForm` (inspection_form.dfy) is the wizard screen.
- `Auth`, `Login` and `Otp` (auth.dfy, login.dfy, otp.dfy) are the sign-in path.
- `Todo` (todo.dfy) and `Inspections` (inspections.dfy) are the two list screens.
- `Annotation`, `SearchSelect`, `FormSelect`, `FormRadio` and `Toast` are the components.

Clock readings (`Date.now()`), the remote save's outcome, the OTP send reply and connectivity are parameters of the methods that use them.

Where the code and the design notes of the app disagree, the model follows the code:

- A radio or select answer is accepted when it is truthy. Membership in `options` is not checked (`Questions.OptionMembershipNotChecked`).
- `retryItem` turns any status back to `pending`, including `synced` (`Sync.RetryRevivesSynced`).
- Queue item ids are `Date.now()` strings. Two adds in one millisecond therefore share an id (`Sync.SameMillisecondSameId`).

## Model

Some definitions only spell out a source expression and have no row of their own. The rows of the lemmas and methods built on them state what they mean:
- `InspectionForm.InitialStep`: `Inspections.OpenForms`, `InspectionForm.Form.constructor` and `InspectionForm.Form.Back`.
- `InspectionForm.Form.PayloadOf`: `InspectionForm.Form.Submit`.
- `Sync.NewItem`: `Sync.SyncQueue.AddToQueue`, `Sync.PendingPreserved` and `Sync.SameMillisecondSameId`.
- `Auth.RequiredLength`: `Auth.ValidatePhone`.
- `Otp.ChannelOf`: `Otp.LoginEmailUsesEmail`.
- `Todo.Flip`: `Todo.FlipTwiceRestores`.
- `Inspections.PressTarget`: `Inspections.PressedItemStartsAtStepOne`.
- `FormSelect.NormalizeOne`: `FormSelect.Normalize` and `FormSelect.NormalizeLabeledIsIdentity`.
- `FormRadio.Highlights`: `FormRadio.PressHighlightsOnlyIt`.

| member | source | states |
|---|---|---|
| Data.InspectionTabs | src/constants/data.ts:3-8 | four tabs, ids active, pending, paused, done, with `active` first |
| Data.TabIds | src/constants/data.ts:3-8 | the tab ids, in tab order |
| Data.Roles | src/constants/data.ts:10 | five distinct non-empty collaborator roles, among them "Site Manager" and "Foreman" |
| Data.ChecklistTypes | src/screens/InspectionFormScreen.tsx:18 | five distinct non-empty checklist types, among them "Structural" and "Safety" |
| Data.DefaultQuestions | src/constants/data.ts:33-72 | ids 1 to 4 in order; none completed; `options` exactly on radio and select; answers null except the text question's `""`; proof required exactly for ids 1 and 3; empty comments, no proof; every answer of the shape its input produces |
| Data.DefaultIdsDistinct | src/constants/data.ts:33-72 | two default questions share an id only if they are the same question |
| Data.NegativeOptionsOffered | src/constants/data.ts:38-57 | `No` (question 1) and `Rejected` (question 3) are offered options that fall in the negative set, so the comment rule is reachable |
| Data.Projects | src/constants/data.ts:73-102 | four projects with ids "1" to "4" |
| Data.TodoList | src/constants/data.ts:110-135 | three seeds, ids 1 to 3, statuses completed, pending, overdue |
| Data.MockInspections | src/constants/data.ts:194-222 | 22 items, ids strictly increasing, every status a tab id |
| Data.IncreasingIdsDistinct | src/constants/data.ts:194-222 | strictly increasing adjacent ids make any two ids ordered |
| Data.MockInspectionIdsDistinct | src/constants/data.ts:194-222 | no two mock inspections share an id |
| Questions.SaveCheck | src/screens/InspectionFormScreen.tsx:344-372 | a working copy passes exactly when every rule holds: string answer for text, non-blank text, truthy radio/select answer, non-null yes/no, a comment for a negative answer, a proof when required |
| Questions.SaveCheckOrder | src/screens/InspectionFormScreen.tsx:344-372 | each refusal is reported exactly when every earlier rule passes and its own fails: the first failing rule wins |
| Questions.SaveCheckIgnoresBookkeeping | src/screens/InspectionFormScreen.tsx:344-372 | the verdict does not depend on `isCompleted`, `id`, `text` or `options` |
| Questions.OptionMembershipNotChecked | src/screens/InspectionFormScreen.tsx:352 | a radio answer that is not one of the options is still accepted |
| Questions.AcceptedFittingIsAnswered | src/screens/InspectionFormScreen.tsx:344-372 | for answers the inputs can produce, acceptance means a non-whitespace text, a chosen yes/no, a chosen non-empty option, a real comment on a negative answer and a proof when required |
| Questions.FitsNeverThrows | src/screens/InspectionFormScreen.tsx:348 | a text question holding a string never reaches the `trim` TypeError |
| Questions.BarrierScenario | src/screens/InspectionFormScreen.tsx:362-366 | a yes/no question answered `false` with a blank comment is refused for the missing comment, and accepted once a comment starting with a visible character is written |
| InspectionForm.Steps | src/screens/InspectionFormScreen.tsx:17 | five steps |
| InspectionForm.NextGate | src/screens/InspectionFormScreen.tsx:94-118 | step 0 needs a non-blank task name (checked first) and a checklist type; step 2 needs an answer for the diagram question and then a diagram image, even after "No"; steps 1 and 3 advance; the last step does not; Advanced exactly when these hold below the last step |
| InspectionForm.ReplaceById | src/screens/InspectionFormScreen.tsx:375 | same length; the entries with the copy's id become the copy, all others stay in place |
| InspectionForm.ReplaceByIdOne | src/screens/InspectionFormScreen.tsx:375 | with distinct ids the map overwrites exactly the one position holding that id |
| InspectionForm.IncompleteFilterNonEmpty | src/screens/InspectionFormScreen.tsx:147-149 | the incomplete-question filter is non-empty exactly when some question is not completed |
| InspectionForm.SubmitCheckPasses | src/screens/InspectionFormScreen.tsx:147-157 | submit passes exactly when every question is completed and a rechecking date is set; the incomplete-questions warning comes first |
| InspectionForm.DefaultsConform | src/constants/data.ts:33-72 | the default checklist satisfies the form invariant: every completed entry passes the save rules |
| InspectionForm.SaveKeepsConforming | src/screens/InspectionFormScreen.tsx:339-342 | saving an accepted copy of a checklist entry keeps the invariant (the save also marks the copy completed, lines 374-375) |
| InspectionForm.Form.constructor | src/screens/InspectionFormScreen.tsx:45-62 | step and lowest step from `InitialStep`; every cell empty; the default checklist (lines 83-86 load it) |
| InspectionForm.Form.SetTaskName | src/screens/InspectionFormScreen.tsx:446 | the task name is the typed text |
| InspectionForm.Form.SelectChecklistType | src/screens/InspectionFormScreen.tsx:73-80 | the type is set; the step jumps to 1 exactly when the task name trims to non-empty, else stays |
| InspectionForm.Form.ToggleRole | src/screens/InspectionFormScreen.tsx:65-71 | the role ends null or the pressed role; null exactly when the pressed role was selected |
| InspectionForm.Form.SetCollaboratorPhoto | src/screens/InspectionFormScreen.tsx:240 | the photo is the camera's URI, or none after the remove button (line 484) |
| InspectionForm.Form.SetHasDiagram | src/screens/InspectionFormScreen.tsx:509-512 | the diagram answer is the pressed yes or no |
| InspectionForm.Form.SetRecheckingDate | src/screens/InspectionFormScreen.tsx:221 | the rechecking date is the picker's value |
| InspectionForm.Form.Next | src/screens/InspectionFormScreen.tsx:94-118 | the outcome is the gate's; the step moves up by one only on Advanced; the step stays within the lowest step and 4 |
| InspectionForm.Form.Back | src/screens/InspectionFormScreen.tsx:120-127 | above the lowest step one step back; at it a cancel is requested and the step stays |
| InspectionForm.Form.OpenQuestionModal | src/screens/InspectionFormScreen.tsx:339-342 | the working copy is the question; the checklist is not touched |
| InspectionForm.Form.TypeAnswer | src/screens/InspectionFormScreen.tsx:392 | only the working copy's answer changes, to the typed string |
| InspectionForm.Form.ChooseYesNo | src/screens/InspectionFormScreen.tsx:399-405 | only the working copy's answer changes, to the pressed boolean |
| InspectionForm.Form.ChooseOption | src/screens/InspectionFormScreen.tsx:419 | only the working copy's answer changes, to the pressed option |
| InspectionForm.Form.EditComment | src/screens/InspectionFormScreen.tsx:730 | only the working copy's comment changes |
| InspectionForm.Form.SaveQuestion | src/screens/InspectionFormScreen.tsx:344-378 | nothing open: nothing happens; a refused copy reports the first failing rule and leaves the checklist and copy unchanged; an accepted copy replaces its entry, marked completed, and the editor closes |
| InspectionForm.Form.AnnotationSave | src/screens/InspectionFormScreen.tsx:327-337 | as written: with a working copy present the picture becomes its proof and the diagram is unchanged; only without one does it become the diagram |
| InspectionForm.Form.EditDiagram | src/screens/InspectionFormScreen.tsx:527-531 | the Edit/Annotate button clears the working copy |
| InspectionForm.Form.AnnotationSaveFor | src/screens/InspectionFormScreen.tsx:327-337 | corrected: a diagram annotation always becomes the diagram, a proof annotation the copy's proof |
| InspectionForm.Form.Submit | src/screens/InspectionFormScreen.tsx:145-190 | blocked submits change nothing and save nothing; offline never saves and queues one `inspection_submit` item; online a failed save queues one item and a successful one queues nothing; every queued question is completed and passes the save rules |
| InspectionForm.NewAtDiagramStep | src/screens/InspectionFormScreen.tsx:94-118 | a named, typed new inspection reaches step 2 |
| InspectionForm.DiagramAttached | src/screens/InspectionFormScreen.tsx:339-342 | a new inspection on step 2 with a diagram attached and no editor open |
| InspectionForm.EditorClosedOverDiagram | src/screens/InspectionFormScreen.tsx:705 | after opening a question and going back without saving, the working copy is still held on step 2 |
| InspectionForm.DiagramChangeLost | src/screens/InspectionFormScreen.tsx:327-337 | as written: a question closed without saving makes a later diagram change land on that question's proof, and the old diagram stays (the X at line 705, Change at line 538) |
| InspectionForm.DiagramChangeKept | src/screens/InspectionFormScreen.tsx:327-337 | corrected: the same steps leave the new picture as the diagram (Change at line 538) |
| Sync.Retried | src/context/SyncContext.tsx:35-37 | same length; items with the id become pending, whatever their status; all others unchanged |
| Sync.RetryAbsentIsNoOp | src/context/SyncContext.tsx:34-39 | retrying an absent id leaves the queue unchanged |
| Sync.RetryRevivesSynced | src/context/SyncContext.tsx:35-37 | a synced item becomes pending again |
| Sync.ClearSyncedExact | src/context/SyncContext.tsx:41-43 | an order-keeping sub-list with no synced item, every other item kept as often as before |
| Sync.ClearSyncedIdempotent | src/context/SyncContext.tsx:41-43 | clearing twice equals clearing once |
| Sync.ClearSyncedOfAllPending | src/context/SyncContext.tsx:41-43 | a queue of pending items is left as it is |
| Sync.PendingPreserved | src/context/SyncContext.tsx:21-43 | add, retry and clear each keep a queue in which every item is pending |
| Sync.SameMillisecondSameId | src/context/SyncContext.tsx:25 | two adds reading the same millisecond give the two newest items the same id |
| Sync.SyncQueue.constructor | src/context/SyncContext.tsx:21 | the queue starts empty |
| Sync.SyncQueue.AddToQueue | src/context/SyncContext.tsx:23-32 | the new pending item first, the old queue after it unchanged |
| Sync.SyncQueue.RetryItem | src/context/SyncContext.tsx:34-39 | the queue becomes `Retried` of the old one |
| Sync.SyncQueue.ClearSynced | src/context/SyncContext.tsx:41-43 | the queue loses exactly its synced items |
| Auth.ValidEmailHasOneAt | src/services/AuthService.ts:33-35 | every accepted email has exactly one `@` after trimming |
| Auth.SplitHasOneAt | src/services/AuthService.ts:34 | a match of the email pattern holds exactly one `@` |
| Auth.ValidatePhone | src/services/AuthService.ts:38-63 | an unknown code accepts everything; for a known code a digit count other than 10 gives the length error (before the format error); ten digits fail only with the format error; valid exactly when the code is unknown or the digits have length 10 and match the code's format (+91: first digit 6 to 9) |
| Auth.LengthErrorText | src/services/AuthService.ts:48 | the length error reads "Phone number for <code> must be exactly 10 digits." |
| Auth.PhoneVerdictOnDigits | src/services/AuthService.ts:39 | the verdict depends only on the phone's digits |
| Auth.UnknownCodeAcceptsAll | src/services/AuthService.ts:45-62 | a code without rules accepts every phone |
| Auth.IndianLeadingDigit | src/services/AuthService.ts:51-60 | any ten digits starting with 5 fail the +91 format but pass for +1 |
| Auth.SpacedIndianNumber | src/services/AuthService.ts:39 | ten digits starting with 6 to 9, typed with a space anywhere inside, are accepted for +91 on their digits |
| Auth.ShortAddressRejected | src/services/AuthService.ts:33-35 | an address whose trimmed text is shorter than six characters is always refused |
| Auth.Session.constructor | src/services/AuthService.ts:2-3 | no token, no user |
| Auth.Session.SetSession | src/services/AuthService.ts:14-20 | the token is replaced; the user only when one is given, else kept |
| Auth.Session.Logout | src/services/AuthService.ts:97-101 | token and user both cleared |
| Auth.Session.GetUser | src/services/AuthService.ts:103-105 | the stored user, or the mock user when none is stored: never null |
| Auth.Session.VerifyOtp | src/services/AuthService.ts:76-90 | accepted exactly for "1234"; then the session holds the mock token and user; otherwise "Invalid OTP" and the session unchanged |
| Auth.SessionLifecycle | src/services/AuthService.ts:97-109 | after sign-in and logout the session is not authenticated and `getUser` falls back to the mock user (sign-in at lines 14-20) |
| Login.StrictSplitIsLoose | src/screens/LoginScreen.tsx:25 | every match of the service's email pattern matches the screen's loose pattern |
| Login.StrictEmailIsLoose | src/screens/LoginScreen.tsx:65-75 | the service's email rule implies the screen's, so the second email check is the stricter one (the screen rule at line 25) |
| Login.LooseWitness | src/screens/LoginScreen.tsx:25 | any split of the trimmed text that the loose pattern accepts makes the screen accept the address |
| Login.ShortLooseEmailNotStrict | src/screens/LoginScreen.tsx:65-75 | every address shorter than six characters that the screen accepts, the service refuses (the screen rule at line 25) |
| Login.FiveCharLoose | src/screens/LoginScreen.tsx:25 | any `a@b.c` of three plain characters is its own trim and passes the screen |
| Login.LooseEmailNotStrict | src/screens/LoginScreen.tsx:65-75 | any `a@b.c`, as in "a@b.c", passes the screen's check and fails the service's (the screen rule at line 25) |
| Login.Precheck | src/screens/LoginScreen.tsx:33-75 | as written: phone mode refuses a bad country code first, then runs the phone rules on the digits with the raw country code; email mode refuses the loose pattern first, then the service's; passes exactly when all checks hold |
| Login.PaddedCodeSkipsPhoneRules | src/screens/LoginScreen.tsx:35-44 | as written: the code "+91 " trims to a known code, yet an empty phone passes (the code check at line 26) |
| Login.PrecheckTrimmed | src/screens/LoginScreen.tsx:33-75 | corrected: the same order, with the phone rules applied to the trimmed code the screen approved |
| Login.TrimmedCodeKeepsPhoneRules | src/screens/LoginScreen.tsx:35-44 | corrected: an approved code with rules always demands exactly ten digits (the code check at line 26) |
| Login.PaddedCodeRefusedWhenTrimmed | src/screens/LoginScreen.tsx:35-44 | corrected: "+91 " with an empty phone is refused for its length (the code check at line 26) |
| Login.LoginScreen.constructor | src/screens/LoginScreen.tsx:15-22 | phone mode, code "+91", empty inputs, not loading |
| Login.LoginScreen.SetMode | src/screens/LoginScreen.tsx:15 | the mode is the chosen one |
| Login.LoginScreen.SetPhone | src/screens/LoginScreen.tsx:18 | the phone is the typed text |
| Login.LoginScreen.SetCountryCode | src/screens/LoginScreen.tsx:19 | the country code is the typed text |
| Login.LoginScreen.SetEmail | src/screens/LoginScreen.tsx:20 | the email is the typed text |
| Login.LoginScreen.OnContinue | src/screens/LoginScreen.tsx:28-93 | as written: a refusal of `Precheck` stops before any OTP request; otherwise the OTP is requested for the raw country code plus the raw phone text, or the email; `loading` ends false on every path |
| Login.LoginScreen.OnContinueCorrected | src/screens/LoginScreen.tsx:28-93 | corrected: the same, stopped by the corrected `PrecheckTrimmed` instead |
| Login.PaddedCodeRequested | src/screens/LoginScreen.tsx:35-55 | as written: code "+91 " with no phone requests an OTP for "+91 " |
| Login.PaddedCodeStopped | src/screens/LoginScreen.tsx:35-55 | corrected: the same input stops with the +91 length error and requests nothing |
| Login.RequestedOnlyWhenApproved | src/screens/LoginScreen.tsx:33-78 | as written: an OTP request implies a valid country code whose raw text the phone rules accept, or an email passing both patterns with exactly one `@` |
| Login.CorrectedRequestedOnlyWhenApproved | src/screens/LoginScreen.tsx:33-78 | corrected: an OTP request implies a valid code with the phone rules passing on the trimmed code, or an email passing both patterns with exactly one `@` |
| Otp.FullCodeNeverAccepted | src/screens/OtpScreen.tsx:31-37 | six filled one-digit cells join into six characters, never the service's "1234" (six cells, line 17) |
| Otp.AtInTrimmed | src/screens/OtpScreen.tsx:40 | an `@` in the trimmed text puts the contact on the email channel |
| Otp.LoginEmailUsesEmail | src/screens/LoginScreen.tsx:65-82 | an email the login screen accepts is verified over the email channel |
| Otp.OtpScreen.constructor | src/screens/OtpScreen.tsx:16-18 | contact from the route or "", six empty cells, not loading |
| Otp.OtpScreen.SetDigit | src/screens/OtpScreen.tsx:22-29 | accepted exactly for "" or one digit; an accepted value writes only its cell; focus moves forward after a digit below the last cell and back after a clear above the first; a rejected value changes nothing |
| Otp.OtpScreen.OnVerify | src/screens/OtpScreen.tsx:31-54 | an empty cell warns and sends nothing; a full code is sent as the six-cell join over the contact's channel; the result is never a welcome and the session is unchanged |
| Todo.InitialTasks | src/screens/TodoScreen.tsx:16-21 | each seed, in order, with its id as text, no proof and an empty comment |
| Todo.SeededTaskIds | src/screens/TodoScreen.tsx:16-21 | the seeded screen holds ids "1", "2", "3" |
| Todo.Toggled | src/screens/TodoScreen.tsx:68-83 | same length; the tasks with the id flip; all others unchanged |
| Todo.FlipTwice | src/screens/TodoScreen.tsx:72 | toggling twice gives completed from completed and pending from anything else, including overdue |
| Todo.FlipTwiceRestores | src/screens/TodoScreen.tsx:71-79 | a styled pending or completed task is restored exactly by two toggles |
| Todo.RemovedExact | src/screens/TodoScreen.tsx:96 | an order-keeping sub-list holding no task with the id, every other task kept as often as before |
| Todo.RemoveAbsent | src/screens/TodoScreen.tsx:96 | deleting an id no task has changes nothing |
| Todo.WithDetails | src/screens/TodoScreen.tsx:43-45 | same length; the tasks with the id take the comment and proof; everything else unchanged |
| Todo.VisibleExact | src/screens/TodoScreen.tsx:110-115 | an order-keeping sub-list; a task is shown exactly when its title contains the query ignoring case and, on Completed, it is completed, on Pending, it is not completed |
| Todo.EmptySearchShowsAll | src/screens/TodoScreen.tsx:111-112 | an empty search on All shows every task |
| Todo.TodoScreen.constructor | src/screens/TodoScreen.tsx:16-28 | the seeded tasks, All, empty search, no editor |
| Todo.TodoScreen.OpenTaskModal | src/screens/TodoScreen.tsx:30-34 | the editor shows the task and its comment |
| Todo.TodoScreen.CloseTaskModal | src/screens/TodoScreen.tsx:36-39 | the editor is closed and empty |
| Todo.TodoScreen.SetCommentText | src/screens/TodoScreen.tsx:28 | the comment box holds the typed text |
| Todo.TodoScreen.AttachProof | src/screens/TodoScreen.tsx:63-65 | the editor's copy gets the photo as proof |
| Todo.TodoScreen.SaveTaskDetails | src/screens/TodoScreen.tsx:41-48 | without a selected task nothing changes; with one, its comment and proof are written and the editor closes |
| Todo.TodoScreen.ToggleStatus | src/screens/TodoScreen.tsx:68-83 | the tasks become `Toggled` of the old ones |
| Todo.TodoScreen.DeleteTask | src/screens/TodoScreen.tsx:94-98 | the tasks become `Removed`; the editor closes exactly when it showed that task |
| Todo.TodoScreen.SetFilter | src/screens/TodoScreen.tsx:22 | the tab is the pressed one |
| Todo.TodoScreen.SetSearchQuery | src/screens/TodoScreen.tsx:23 | the search is the typed text |
| Todo.TodoScreen.FilteredTasks | src/screens/TodoScreen.tsx:110-115 | never more than the tasks; every shown title matches the search; Completed shows only completed, Pending only non-completed tasks |
| Todo.OverdueToggledTwice | src/screens/TodoScreen.tsx:72 | the seeded overdue task toggled twice is pending |
| Inspections.ByTabExact | src/screens/InspectionScreen.tsx:52 | an order-keeping sub-list of exactly the items with the tab's status |
| Inspections.TabsPartitionMock | src/screens/InspectionScreen.tsx:52 | every mock inspection is listed under exactly the tab named by its status |
| Inspections.PressedItemStartsAtStepOne | src/screens/InspectionScreen.tsx:42-45 | a pressed item opens the form at step 1 |
| Inspections.NewInspectionStartsAtStepZero | src/screens/InspectionScreen.tsx:48-50 | a new inspection opens the form at step 0 |
| Inspections.FindProject | src/screens/InspectionScreen.tsx:21 | the first project with the id, or none exactly when no project has it |
| Inspections.InspectionScreen.constructor | src/screens/InspectionScreen.tsx:16-31 | the first project, dropdown closed, the first tab |
| Inspections.InspectionScreen.ToggleDropdown | src/screens/InspectionScreen.tsx:33 | the dropdown flag flips |
| Inspections.InspectionScreen.SelectProject | src/screens/InspectionScreen.tsx:35-38 | the project is selected and the dropdown closes |
| Inspections.InspectionScreen.SetActiveTab | src/screens/InspectionScreen.tsx:31 | the tab is the pressed one |
| Inspections.InspectionScreen.ApplyRouteParams | src/screens/InspectionScreen.tsx:19-29 | a known project id selects that project, an unknown or missing one keeps the selection; a tab parameter sets the tab |
| Inspections.InspectionScreen.Listed | src/screens/InspectionScreen.tsx:52 | every listed item has the active tab's status |
| Inspections.RouteSelectsProject | src/screens/InspectionScreen.tsx:20-24 | project id "2" selects the second project |
| Inspections.UnknownProjectKeepsSelection | src/screens/InspectionScreen.tsx:20-24 | an unknown project id keeps the first project |
| Inspections.OpenForms | src/screens/InspectionScreen.tsx:40-50 | opening a listed item starts the form at 1, a new inspection at 0 |
| Annotation.MoveTo | src/components/common/ImageAnnotationModal.tsx:32 | a stroke starts with `M` |
| Annotation.LineTo | src/components/common/ImageAnnotationModal.tsx:36 | each point appends text beginning ` L` |
| Annotation.Committed | src/components/common/ImageAnnotationModal.tsx:39-44 | the strokes so far stay in place, and exactly one more, the stroke in progress, is added exactly when it is not empty |
| Annotation.Undone | src/components/common/ImageAnnotationModal.tsx:54-56 | one stroke fewer when there is one, none on an empty stack, the remaining strokes being the earlier ones in place |
| Annotation.UndoAfterRelease | src/components/common/ImageAnnotationModal.tsx:38-56 | undo takes back exactly the stroke a release committed |
| Annotation.Canvas.constructor | src/components/common/ImageAnnotationModal.tsx:15-16 | no strokes, nothing in progress |
| Annotation.Canvas.Grant | src/components/common/ImageAnnotationModal.tsx:30-33 | the stroke in progress restarts at the touch point, discarding any earlier one |
| Annotation.Canvas.Move | src/components/common/ImageAnnotationModal.tsx:34-37 | the stroke in progress is extended by one line |
| Annotation.Canvas.Release | src/components/common/ImageAnnotationModal.tsx:38-45 | strokes become `Committed` (at most one more, only non-empty ones); the stroke in progress resets |
| Annotation.Canvas.Undo | src/components/common/ImageAnnotationModal.tsx:54-56 | strokes become `Undone` |
| Annotation.Canvas.Clear | src/components/common/ImageAnnotationModal.tsx:49-52 | no strokes and nothing in progress |
| Annotation.StrokeThenUndo | src/components/common/ImageAnnotationModal.tsx:30-56 | one stroke drawn and undone leaves a blank canvas |
| Js.SearchIgnoresCase | src/components/common/SearchableSelectModal.tsx:17 | lower-casing either side does not change the match, and the empty query matches everything |
| SearchSelect.FilteredOptionsExact | src/components/common/SearchableSelectModal.tsx:16-18 | an order-keeping sub-list; an option is kept exactly when it contains the query ignoring case, as often as offered |
| SearchSelect.EmptyQueryShowsAll | src/components/common/SearchableSelectModal.tsx:17 | an empty query keeps every option |
| SearchSelect.FilteredOptionsIdempotent | src/components/common/SearchableSelectModal.tsx:16-18 | filtering again by the same query changes nothing |
| SearchSelect.SearchModal.constructor | src/components/common/SearchableSelectModal.tsx:14 | the query starts empty |
| SearchSelect.SearchModal.SetSearchQuery | src/components/common/SearchableSelectModal.tsx:14 | the query is the typed text |
| SearchSelect.SearchModal.HandleSelect | src/components/common/SearchableSelectModal.tsx:20-23 | the item is handed on and the query resets |
| SearchSelect.SearchModal.HandleClose | src/components/common/SearchableSelectModal.tsx:25-28 | the query resets |
| SearchSelect.SearchModal.Shown | src/components/common/SearchableSelectModal.tsx:16-18 | never more than the options, each containing the query ignoring case |
| FormSelect.Normalize | src/components/form/FormSelect.tsx:22-24 | same length, each option normalised in place |
| FormSelect.NormalizeLabeledIsIdentity | src/components/form/FormSelect.tsx:22-24 | options already given as pairs come through unchanged |
| FormSelect.SelectedOption | src/components/form/FormSelect.tsx:26 | none exactly when no value matches; otherwise the first option whose value equals the current one |
| FormSelect.DisplayText | src/components/form/FormSelect.tsx:42-44 | the caption of the first option whose value equals the current one, or the placeholder when none does (placeholder at line 19) |
| FormSelect.SelectedIsTheOne | src/components/form/FormSelect.tsx:73 | with distinct values at most one option is highlighted, and it is the selected option (the lookup at line 26) |
| FormSelect.StringOptionsDisplay | src/components/form/FormSelect.tsx:19-44 | string options show the chosen string; an unmatched value shows "Select an option" |
| FormSelect.SelectField.constructor | src/components/form/FormSelect.tsx:20 | the sheet starts closed |
| FormSelect.SelectField.Open | src/components/form/FormSelect.tsx:38 | the sheet opens |
| FormSelect.SelectField.Close | src/components/form/FormSelect.tsx:54-64 | the sheet closes |
| FormSelect.SelectField.HandleSelect | src/components/form/FormSelect.tsx:28-31 | the value is handed to `onChange` and the sheet closes |
| FormRadio.Pressed | src/components/form/FormRadio.tsx:32 | a press hands over the option's value, which that option then shows as selected |
| FormRadio.PressHighlightsOnlyIt | src/components/form/FormRadio.tsx:27-32 | with distinct values, after a press exactly the pressed option is highlighted |
| FormRadio.SelectAgreesWithRadio | src/components/form/FormRadio.tsx:28 | the option a select field would label is highlighted by the radio group |
| Toast.ToastState.constructor | src/context/ToastContext.tsx:12-14 | hidden, empty message, type info |
| Toast.ToastState.Show | src/context/ToastContext.tsx:16-20 | visible with the new message; the given type, or info by default |
| Toast.ToastState.Hide | src/context/ToastContext.tsx:22-24 | hidden; message and type unchanged, so hiding again changes nothing |
| Toast.LastToastWins | src/context/ToastContext.tsx:16-24 | a later toast replaces an earlier one; hiding twice keeps the last text and type |

## Left out

- Rendering, styling, modal visibility of the wizard screens, navigation (`goBack`, `navigate`, `reset`), `Alert` dialogs and toast texts. Navigation is modelled only as the outcome or the route parameters it carries.
- Camera, gallery and permission calls (`pickImage`, `processImageResult`, `handleCamera`). These are foreign calls; image URIs are opaque strings handed to the setters.
- The annotation capture (`handleSave` with ViewShot) and the `saving` flag, which are foreign calls. The component's `imageUri` guard is display logic.
- Pan coordinates are floats in the source. The model uses integers for them and formats them as decimal text.
- The remote save `InspectionService.saveInspection` and its random failure: the outcome is a `saveSucceeds` parameter.
- `sendOtp`, which always succeeds in the mock: its reply is a `sendSucceeds` parameter. Its timers, and those of `verifyOtp`, the toast auto-hide and the splash and intro screens, are left out.
- `Date.now()`: each reading is a parameter. `toISOString` and the date/time picker merge in `onDateChange` depend on JavaScript `Date` semantics. The rechecking date is therefore an integer number of milliseconds.
- `netInfo.isConnected` may be `null`, which the handler treats as offline. It is modelled as a `bool`, with false standing for null.
- `handlePause` (a toast and a navigation only), `handleCancel`'s dialog, and the checklist-type modal's visibility.
- Object-valued and other reference-compared option values of the select and radio controls: `Value` covers strings, integers, booleans and null, compared structurally.
- `isCompleted` is optional in the source. It is modelled as a `bool`, with an absent flag as `false`.
- Lookups of JavaScript prototype keys (`lengthMap["toString"]`) in `validatePhone` are not modelled: only the three listed codes have rules.
- The `catch` branches of `onContinue` and `onVerify`. The mocks never reject, so they are unreachable in this code.
- The OTP screen's welcome branch (`response.user.first_name`). The six-cell code never matches "1234", so `Otp.OtpScreen.OnVerify` proves that branch unreachable instead.
- `toLowerCase` is ASCII-only: Unicode case mapping is not modelled. (`trim` and `\s` do use the full ECMAScript whitespace set.)
- The `useSync` and `useToast` errors for a missing provider, the SyncScreen display, and the Dashboard, drawer, wiring and static screens.
- InspectionForm.Form.AnnotationSaveFor: the picture's target is recorded when the picker opens, which the original does not do (see Findings). `InspectionForm.Form.AnnotationSave` keeps the code as written.

## Findings

| source | as written | input that shows it | evidently intended | confidence | as-written member | corrected member |
|---|---|---|---|---|---|---|
| src/screens/InspectionFormScreen.tsx:327-337 | the annotated picture goes to `activeQuestion`'s proof whenever a working copy exists, and closing the question editor with its X (line 705) does not clear it | on the diagram step attach "d1", go to the checklist, open a question, close it without saving, go back and press Change (line 538) with "d2" | a diagram change replaces the diagram | medium, not executed | InspectionForm.DiagramChangeLost | InspectionForm.DiagramChangeKept |
| src/screens/LoginScreen.tsx:35-44 | the country code check trims the code, but `validatePhone` receives the untrimmed code, which is then not a key of its rule maps | country code "+91 " (four characters, within the input's limit) with an empty phone passes every check | the phone rules apply to the code the check approved | medium, not executed | Login.PaddedCodeSkipsPhoneRules | Login.PaddedCodeRefusedWhenTrimmed |
