# Document request tracking: service and page logic

This project models, in Dafny, the logic of a school's document-request tracker
(an Ionic/Angular application over Firebase):

- the data service in front of the `requests` collection and the file store
  (`src/app/service/firebase.service.ts`): adding, deleting and updating request
  documents in a keyed store, the per-student query, and the folder listing that
  pairs each stored file's name with its download URL;
- the approval page (`src/app/approval/approval.page.ts`): the list of
  Form 137 requests, the two searches over it, and the local list updates after
  an edit or a delete;
- the completion page (`src/app/completion/completion.page.ts`): the name search
  over the completion folder, the path a delete targets, and the upload of the
  selected file to the folder and to a dated backup folder;
- the student-account page (`src/app/editstudent/editstudent.page.ts`): the
  account search, the record saved on sign-up, and the fields cleared after an
  e-mail is sent.

The store is a `map` from document key to document (a `map` from field name to
value) held in the class `Service.FirebaseService`; its write methods are proved
against functions on maps (`Added`, `Removed`, `Patched`) whose contracts state
what changes and that nothing else does. Every page is a class whose methods
reassign its fields; the searches are order-preserving filters
(`Sequences.Filter`), with lemmas for membership, subsequence, repeated
narrowing and the empty-term rule. Results of asynchronous calls (fetched
lists, promise outcomes, generated keys, the current time as an ISO string)
are parameters of the methods that receive them.

What the code does, stated where a reader might expect more:

- `addRequest` performs no duplicate check and stores no composite key;
  `AddRequestStoresDuplicates` proves two requests of one student for one
  document type are both stored.
- `updateRequest`, `deleteRequest` and `deleteItem` add no not-found check of
  their own. Only the two deletes succeed on a missing key, and they leave the
  store as it was. `updateRequest` on a missing key is rejected by the store
  and writes nothing.
- `src/app/service/firebase.service.ts` has no forward, decline or complete
  operation and no completion timestamps. The calls that workflow makes
  (`getApproval`, `deleteApproval`, `addApproval`, `addCompleted`, from
  `src/app/modal/modal.page.ts` lines 57, 127, 153 and 212) name service
  functions that file does not contain.
- `getFolderContents` keeps the listing order.

## Model

| member | source | states |
|---|---|---|
| `Text.Lower` | src/app/approval/approval.page.ts:92-94 | `toLowerCase` keeps the length and lower-cases each character (ASCII letters) |
| `Text.Contains` | src/app/approval/approval.page.ts:92-94 | `includes` holds for the empty needle and never for a needle longer than the haystack |
| `Text.IndexOf` | src/app/approval/approval.page.ts:116-118 | `indexOf` is -1 or the first position where the needle occurs; it is not -1 exactly when `includes` holds |
| `Text.Trim` | src/app/completion/completion.page.ts:113 | `trim()` returns a slice of its input that neither starts nor ends with white space, every character outside it being white space or a line terminator |
| `Text.TrimEmptyIffBlank` | src/app/completion/completion.page.ts:113 | `trim()` gives "" exactly when every character is white space or a line terminator |
| `Text.BeforeFirst` | src/app/completion/completion.page.ts:50 | `split('T')[0]` is a prefix of the input without 'T', followed in the input by 'T' or by nothing |
| `Text.BeforeFirstOfJoin` | src/app/completion/completion.page.ts:50 | splitting `date + "T" + time` at its first 'T' gives back `date` |
| `Sequences.Filter` | src/app/approval/approval.page.ts:85 | `filter` returns at most as many elements as it is given, each from the input and passing the test |
| `Sequences.FilterMembership` | src/app/approval/approval.page.ts:113-122 | `filter` keeps an element exactly when it is in the input and passes the test |
| `Sequences.FilterIsSubsequence` | src/app/approval/approval.page.ts:85 | `filter` returns an order-preserving subsequence of its input |
| `Sequences.FilterTwice` | src/app/approval/approval.page.ts:113 | filtering an already filtered list equals one filter by both tests |
| `Sequences.FilterIdempotent` | src/app/approval/approval.page.ts:113 | filtering again with the same test changes nothing |
| `Service.ToDocument` | src/app/service/firebase.service.ts:18-25 | the document written for a request has its five fields, plus `id` only when the request has one |
| `Service.RequestPatch` | src/app/service/firebase.service.ts:106 | the update patch has exactly the four fields `student_name`, `document_type`, `status`, `student_id` with the request's values |
| `Service.DocKey` | src/app/service/firebase.service.ts:100-105 | the path templates key a document by the request's id, and by "undefined" when it has none |
| `Service.Added` | src/app/service/firebase.service.ts:89-92 | adding under a fresh key adds one document and keeps every other one |
| `Service.Removed` | src/app/service/firebase.service.ts:99-102 | deleting a key removes that document only; every other document is unchanged |
| `Service.Patched` | src/app/service/firebase.service.ts:142-144 | an update overwrites the patch's fields of one document and keeps its other fields and all other documents |
| `Service.GetUserDataByUID` | src/app/service/firebase.service.ts:109-111 | the query returns exactly the documents whose `student_id` equals the uid |
| `Service.UpdateRequestFrame` | src/app/service/firebase.service.ts:104-107 | `updateRequest` sets the four fields, keeps `email` and every other field, and touches no other document |
| `Service.AddRequestStoresDuplicates` | src/app/service/firebase.service.ts:89-92 | two requests with the same `student_id` and `document_type` are both stored and both found by the student query |
| `Service.UpdateRequestMovesStudent` | src/app/service/firebase.service.ts:104-111 | after `updateRequest` the document is found under the student id it was given |
| `Service.RemovedUndoesAdded` | src/app/service/firebase.service.ts:89-102 | deleting the key just added gives back the store as it was |
| `Service.RemovedIdempotent` | src/app/service/firebase.service.ts:146-148 | deleting the same key twice equals deleting it once |
| `Service.Names` | src/app/service/firebase.service.ts:128-131 | the names of a listing's entries, one per entry, in order |
| `Service.Pair` | src/app/service/firebase.service.ts:124-133 | name i is paired with URL i; the pairing exists exactly when every URL resolved |
| `Service.GetFolderContents` | src/app/service/firebase.service.ts:118-136 | a failed listing or any failed URL fails the call; on success the names are the listing in order and entry i carries URL i |
| `Service.GetFilesFromFolderIgnoresPath` | src/app/service/firebase.service.ts:113-116 | every folder path lists the same hard-coded location |
| `Service.GetFilesFromFolder` | src/app/service/firebase.service.ts:113-116 | the location listed is the hard-coded documents root |
| `Service.FirebaseService.AddRequest` | src/app/service/firebase.service.ts:89-92 | the request's document is stored under the fresh key; nothing else changes |
| `Service.FirebaseService.DeleteRequest` | src/app/service/firebase.service.ts:99-102 | the document keyed by the request's id (or "undefined") is removed and nothing else |
| `Service.FirebaseService.UpdateRequest` | src/app/service/firebase.service.ts:104-107 | the four fields are merged into the document keyed by the request's id |
| `Service.FirebaseService.UpdateItem` | src/app/service/firebase.service.ts:142-144 | `newData` is merged into the document keyed `id` |
| `Service.FirebaseService.DeleteItem` | src/app/service/firebase.service.ts:146-148 | the document keyed `id` is removed and nothing else |
| `Approval.SearchResults` | src/app/approval/approval.page.ts:82-101 | the search result is a subsequence of the fetched list and holds only Form 137 requests |
| `Approval.SearchResultsMembership` | src/app/approval/approval.page.ts:83-97 | a request is shown exactly when it is Form 137 and, for a set text, the text occurs ignoring case in its name, status or request date |
| `Approval.SearchWithoutTextIsForm137List` | src/app/approval/approval.page.ts:83-85 | an undefined or empty text shows every Form 137 request, in order |
| `Approval.Narrowed` | src/app/approval/approval.page.ts:105-123 | `filterList` keeps a subsequence of the current list, and all of it for an empty term |
| `Approval.NarrowedMembership` | src/app/approval/approval.page.ts:113-122 | an entry stays exactly when its name is not empty and the term occurs ignoring case in its name, status or document type |
| `Approval.NarrowIgnoresRequestDate` | src/app/approval/approval.page.ts:116-118 | the `filterList` test does not depend on the request date |
| `Approval.NarrowedTwice` | src/app/approval/approval.page.ts:113-122 | two narrowings keep a subsequence of the list before them, holding the entries both terms match |
| `Approval.NarrowByDocumentTypeKeepsAll` | src/app/approval/approval.page.ts:118 | a term found in "form 137" keeps every named entry of a Form 137 list |
| `Approval.WithoutId` | src/app/approval/approval.page.ts:214 | after a delete no entry has the deleted id, and the rest keep their order |
| `Approval.WithoutIdKeepsOthers` | src/app/approval/approval.page.ts:214 | every entry with another id, or none, stays |
| `Approval.ApprovalPage.constructor` | src/app/approval/approval.page.ts:42-58 | the sender name is the school's and `initialFromName` equals it; the list starts empty |
| `Approval.ApprovalPage.OnRequests` | src/app/approval/approval.page.ts:54-65 | a listing arriving shows only its Form 137 requests |
| `Approval.ApprovalPage.SearchItems` | src/app/approval/approval.page.ts:78-102 | the list becomes the search result over the fresh listing |
| `Approval.ApprovalPage.FilterList` | src/app/approval/approval.page.ts:105-123 | the list becomes its own narrowing; an empty term changes nothing |
| `Approval.ApprovalPage.EditItem` | src/app/approval/approval.page.ts:162-194 | after a successful update the list is the whole re-fetched listing and the log carries the id and the patch; otherwise nothing changes |
| `Approval.ApprovalPage.DeleteItem` | src/app/approval/approval.page.ts:196-225 | after a confirmed, successful delete the entries with that id leave the list; otherwise nothing changes |
| `Completion.DeletePath` | src/app/completion/completion.page.ts:135 | the delete path is the folder, one "/", then the item name |
| `Completion.DeletePathSplits` | src/app/completion/completion.page.ts:135 | the delete path splits back into the folder and the item name |
| `Completion.BackupFolder` | src/app/completion/completion.page.ts:50 | the backup folder is "backups/", the longest 'T'-free prefix of the timestamp, and "/" |
| `Completion.BackupFolderOfTimestamp` | src/app/completion/completion.page.ts:49-51 | for `date + "T" + time` the backup folder is "backups/" + `date` + "/" |
| `Completion.FilteredContents` | src/app/completion/completion.page.ts:112-122 | the shown list is a subsequence of the listing, and all of it when the trimmed text is empty |
| `Completion.FilteredContentsMembership` | src/app/completion/completion.page.ts:118-120 | for a non-blank text, an entry is shown exactly when the text occurs in its name ignoring case |
| `Completion.BlankTextShowsAll` | src/app/completion/completion.page.ts:113-115 | text made of white space only shows the whole listing |
| `Completion.UntrimmedTextTakesPart` | src/app/completion/completion.page.ts:113-119 | the untrimmed text is matched: " a" misses "a.pdf", "a" finds it |
| `Completion.CompletionPage.constructor` | src/app/completion/completion.page.ts:17-28 | no file, no progress, no URL, folder "/Completion", empty text and lists |
| `Completion.CompletionPage.Upload` | src/app/completion/completion.page.ts:55-71 | without a file nothing happens; otherwise the file goes to the destination, a yielded URL is kept and the progress is cleared |
| `Completion.CompletionPage.UploadFile` | src/app/completion/completion.page.ts:45-52 | the file is sent to "Completion" and then to the dated backup folder |
| `Completion.CompletionPage.OnFolderContents` | src/app/completion/completion.page.ts:80-84 | a listing arriving becomes both `contents` and `filteredContents` |
| `Completion.CompletionPage.GetFolderContents` | src/app/completion/completion.page.ts:78-89 | a successful listing replaces both lists; a failed one changes nothing |
| `Completion.CompletionPage.FilterContents` | src/app/completion/completion.page.ts:112-122 | the shown list becomes the filtered listing |
| `Completion.CompletionPage.DeleteItem` | src/app/completion/completion.page.ts:134-155 | a confirmed delete targets the folder, "/" and the item's name, which split back into the page's folder and the name; a cancelled one targets nothing |
| `EditStudent.FilteredAccounts` | src/app/editstudent/editstudent.page.ts:82-100 | the shown accounts are a subsequence of the fresh listing, all of it for an empty term |
| `EditStudent.FilteredAccountsMembership` | src/app/editstudent/editstudent.page.ts:91-96 | an account is shown exactly when the term occurs ignoring case in its display name, status or e-mail |
| `EditStudent.FilterAccountsAsWritten` | src/app/editstudent/editstudent.page.ts:91-97 | the search as written, when it does not throw, keeps at most the fetched accounts and only accounts from the listing |
| `EditStudent.AsWrittenThrowsIff` | src/app/editstudent/editstudent.page.ts:91-97 | the code as written throws exactly when some account has no status and its name does not match |
| `EditStudent.AsWrittenAgreesWhenItReturns` | src/app/editstudent/editstudent.page.ts:91-97 | when the code as written does not throw, it shows what the corrected test shows |
| `EditStudent.MissingStatusThrows` | src/app/editstudent/editstudent.page.ts:91-97 | an account without status makes the search as written throw, where the corrected search leaves it out |
| `EditStudent.SignupRecord` | src/app/editstudent/editstudent.page.ts:106-117 | the saved record copies the four form fields and the new uid, and has `Status` exactly when the form's status is truthy |
| `EditStudent.EditstudentPage.constructor` | src/app/editstudent/editstudent.page.ts:47-56 | the sender name is the school's and `initialFromName` equals it |
| `EditStudent.EditstudentPage.FilterList` | src/app/editstudent/editstudent.page.ts:82-100 | each search starts from the fresh listing: an empty term shows all of it; otherwise, when the callback as written does not throw, the list is the intended filter of the listing, and when it throws the list stays as it was |
| `EditStudent.EditstudentPage.Signup` | src/app/editstudent/editstudent.page.ts:103-131 | a record is saved exactly when user creation yields a non-empty uid |
| `EditStudent.EditstudentPage.SendEmail` | src/app/editstudent/editstudent.page.ts:155-174 | the mail carries the current fields; after a successful send they are all empty |

## Left out

- Authentication, e-mail transport, routing, modals, alerts, toasts, `window.open`, `location.reload` and console logging. `window.confirm` and alert confirmations are a boolean parameter.
- The forward, complete and decline workflow of `src/app/modal/modal.page.ts`. It is alert-driven and calls service functions (`addApproval`, `addCompleted`, `deleteApproval`) that are not part of this model. Its notification count is updated from a change feed and is racy.
- `src/app/app.module.ts` (configuration) and `src/app/notification.service.ts` (messaging pass-through).
- Service members that only pass a call through to Firebase: `loginWithEmail`, `signup`, `logout`, `saveDetails`, `getDetails`, `getAccounts`, `getRequests`, `getAccountById`, `getRequestById`, `addAccount`, `getItems`, `deleteFile`, `deleteUser`.
- Observables and asynchronous ordering. Each callback is one synchronous method whose inputs are parameters. Which of two concurrent subscriptions or uploads finishes last is not modelled; `UploadFile` takes the two outcomes in call order.
- Service.FirebaseService.AddRequest: the generated key is a parameter, required not to be in use already.
- Service.Patched: the error Firestore reports for a missing key is not modelled; only that nothing is written.
- Service.Patched: dotted field paths in a patch, and field values other than strings, are not modelled.
- Service.GetUserDataByUID: returns the matching documents keyed by id. The order of the returned list is not modelled, nor that the list drops the keys.
- Service.GetFolderContents: with an empty listing the code's `forkJoin` emits nothing, so the page keeps its old lists. The model returns an empty listing instead.
- Service.GetFilesFromFolder: only the location it lists is modelled, not the listing it returns.
- Text.Lower: JavaScript's Unicode case mapping is modelled on ASCII letters only.
- Approval.SearchResults: every request field is a string. The `TypeError` that reading a missing `student_name`, `status` or `request_date` would raise is not modelled.
- Ids containing '/', which would change the document path a template builds.
- Completion.CompletionPage.Upload: upload progress is never set to a number in this page, so only its reset to null is modelled.
- The split of `toEmail` at commas in `sendEmail` is only logged, so it is not modelled.
- Dates: `new Date()` and `toISOString()` are replaced by an ISO timestamp parameter.

## Findings

| source | as written | input that shows it | evidently intended | confidence | as-written member | corrected member |
|---|---|---|---|---|---|---|
| src/app/editstudent/editstudent.page.ts:91-97 | the search calls `account.Status.toLowerCase()` on every account whose display name does not match, yet `signup` (lines 114-117) saves `Status` only when it is truthy, so such accounts lack it and the callback throws; the list is then not updated | accounts `[{displayName: "ana", email: "a@b", Status: absent}]`, search term "x" | an account without `Status` is matched on its name and e-mail only | not executed | `EditStudent.FilterAccountsAsWritten` (shown by `EditStudent.MissingStatusThrows`) | `EditStudent.FilteredAccounts` |
