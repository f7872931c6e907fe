# Posts manager core, in Dafny

This project models the core of a small posts manager:

- **The posts store.** It holds the list of posts, a loading flag, an error message and the selected post. Its reducers replace, prepend, update and delete records. Four async actions (fetch, create, update, delete) call the remote gateway and hand what it returns to those reducers.
- **The attachment validator.** It accepts PDF and JPEG files of at most 5 MiB.
- **The attachment picker.** It takes in a batch of files through the validator, handles removal of an attachment, and chooses an icon for each file. As written, removal empties the whole list, whatever index is passed; see "## Findings".
- **The create/edit form.** It is seeded from the post being edited. It clears a field's error when that field is edited, checks both fields, and on submit hands the trimmed title and body plus the attachments to its caller, then resets itself.
- **The remote gateway.** Its HTTP calls are taken out. Each operation is split into the request it would send and the mapping from the server's answer to the record it returns.

Modules:

- `Types` (types.dfy): the records (post, attachment, form payload) and id uniqueness.
- `JsString` (jsstring.dfy): the JavaScript string built-ins the core relies on: `trim`, `startsWith`, `join`, and `length` counted in UTF-16 code units.
- `FileValidation` (filevalidation.dfy): the validator.
- `Api` (api.dfy): the gateway's requests and result mappings.
- `PostsSlice` (postsslice.dfy): the list operations the reducers perform, proved against their own properties. The store is a class whose methods are the reducers and the four dispatched actions.
- `FileUpload` (fileupload.dfy): the picker. Intake is a loop proved against the `Accepted`/`Rejected`/`RejectionEntries` specification functions.
- `Form` (form.dfy): the form. Its validation is a function, and its state is a class.

The model follows the code as written, including where it departs from what the program evidently means to do:

- **Empty error message.** A fetch that fails with an empty message records the fallback "Error al cargar publicaciones", not the empty message (`FetchErrorMessage`).
- **Unique ids.** Post ids are expected to be unique, but nothing enforces it. Create prepends without checking, so uniqueness survives exactly when the new id is fresh (`PrependUniqueIff`). Update touches only the first record with the id, and delete removes every record with it.
- **Untrimmed length.** The minimum-length checks measure the untrimmed value. So "  a" passes as a title and is submitted as "a" (`UntrimmedLengthCounts`).

## Model

| member | source | states |
|---|---|---|
| JsString.TrimStartSpec | src/components/Form.tsx:44 | trimming the start leaves a suffix of the input; everything dropped is whitespace, and what is left does not start with whitespace |
| JsString.TrimEndSpec | src/components/Form.tsx:50 | trimming the end leaves a prefix of the input; everything dropped is whitespace, and what is left does not end with whitespace |
| JsString.TrimEmptyIffBlank | src/components/Form.tsx:44 | `trim()` gives the empty string exactly when every character is whitespace |
| JsString.TrimShape | src/components/Form.tsx:68-69 | the trimmed value is a contiguous piece of the input, never longer; when non-empty, it neither starts nor ends with whitespace |
| JsString.JoinEmpty | src/components/FileUpload.tsx:32-34 | non-empty parts join to the empty string only when there are no parts |
| JsString.JoinLength | src/components/FileUpload.tsx:33 | the joined text holds every part plus one separator per gap |
| JsString.Utf16Length | src/components/Form.tsx:46 | `length` counts at least one and at most two code units per character |
| JsString.Utf16LengthBmp | src/components/Form.tsx:52 | text inside the Basic Multilingual Plane has exactly one code unit per character |
| FileValidation.FileValidate | src/utils/fileValidation.ts:4-20 | valid exactly when the type is one of the three allowed and the size is at most 5242880 bytes; valid exactly when there is no error; a refused type gives the type message even when the size is also too large; an allowed but oversized file gives the size message |
| FileValidation.SizeBoundary | src/utils/fileValidation.ts:12-17 | the size limit is inclusive: exactly 5 MiB passes with an allowed type, and one byte more fails with the size message |
| FileValidation.ExactTypeMatch | src/utils/fileValidation.ts:5-10 | type matching is exact string equality: PNG, an upper-cased JPEG type and a padded PDF type are all refused |
| Api.ListRequest | src/services/api.ts:13-16 | the list is fetched with GET /posts and no body |
| Api.CreateRequest | src/services/api.ts:18-23 | a create is a POST to /posts carrying the title, the body and user id 1 |
| Api.CreateResult | src/services/api.ts:25-28 | the created record is the server's answer with its id replaced by the clock reading, and nothing else changed |
| Api.UpdateRequest | src/services/api.ts:31-36 | an update is a PUT to /posts/{id} carrying the title, the body and user id 1 |
| Api.UpdateResult | src/services/api.ts:37 | the updated record is the server's answer with its id forced to the requested id, and nothing else changed |
| Api.DeleteRequest | src/services/api.ts:40-42 | a delete is a DELETE of /posts/{id} with no body |
| Api.FilesNotSent | src/services/api.ts:18-36 | attachments never reach the server: payloads with equal title and body send equal requests |
| Api.ServerIdIgnored | src/services/api.ts:25-37 | whatever id the server puts in its answer, create and update return the same record |
| PostsSlice.FindIndex | src/store/postsSlice.ts:73 | returns -1 exactly when no record has the id, and otherwise the first index holding it |
| PostsSlice.Updated | src/store/postsSlice.ts:72-77 | the length is kept; the first record with the payload's id becomes the payload and every other entry stays; with no match the list is unchanged |
| PostsSlice.Without | src/store/postsSlice.ts:78-80 | no record with the id survives; a record is in the result exactly when it was in the list and has a different id |
| PostsSlice.FetchErrorMessage | src/store/postsSlice.ts:65-68 | the recorded error is never empty: it is the failure's message when that is non-empty, and the fixed fallback otherwise |
| PostsSlice.WithoutAppend | src/store/postsSlice.ts:79 | deleting from a concatenation deletes from each part, so relative order is kept |
| PostsSlice.WithoutIdempotent | src/store/postsSlice.ts:78-80 | deleting the same id twice is the same as deleting it once |
| PostsSlice.WithoutUnchangedIff | src/store/postsSlice.ts:78-80 | a delete leaves the list unchanged exactly when no record has the id |
| PostsSlice.WithoutUniqueRemovesOne | src/store/postsSlice.ts:78-80 | with unique ids, deleting the id at position k removes exactly that entry and keeps the order of the others |
| PostsSlice.WithoutKeepsUnique | src/store/postsSlice.ts:78-80 | a delete never breaks id uniqueness |
| PostsSlice.UpdatedKeepsIds | src/store/postsSlice.ts:72-77 | an update keeps every id in its position, so it never breaks uniqueness |
| PostsSlice.UpdatedIdempotent | src/store/postsSlice.ts:72-77 | applying the same update twice is the same as applying it once |
| PostsSlice.PrependUniqueIff | src/store/postsSlice.ts:69-71 | a create keeps ids unique exactly when the new id is not already present |
| PostsSlice.PrependThenWithout | src/store/postsSlice.ts:69-80 | deleting a freshly created record with a fresh id restores the list from before the create |
| PostsSlice.WithoutDropsMatch | src/store/postsSlice.ts:78-80 | a record carrying the deleted id vanishes from between its neighbours, which are filtered in place |
| PostsSlice.WithoutAfterUpdated | src/store/postsSlice.ts:72-80 | deleting an id after updating it is the same as deleting it directly |
| PostsSlice.UpdateThroughGateway | src/services/api.ts:31-38 | an update through the gateway lands on the first record with the requested id, whatever id the server echoed, and carries the server's title, body and author |
| PostsSlice.PostStore.constructor | src/store/postsSlice.ts:5-10 | the initial state: no posts, not loading, no error, nothing selected |
| PostsSlice.PostStore.SetSelectedPost | src/store/postsSlice.ts:48-50 | only the selection changes, and it becomes the given post or none |
| PostsSlice.PostStore.ClearError | src/store/postsSlice.ts:51-53 | only the error changes, and it becomes none |
| PostsSlice.PostStore.FetchPending | src/store/postsSlice.ts:57-60 | loading is set and the error is cleared; the list and the selection are kept |
| PostsSlice.PostStore.FetchFulfilled | src/store/postsSlice.ts:61-64 | the list is replaced by the fetched one and loading ends |
| PostsSlice.PostStore.FetchRejected | src/store/postsSlice.ts:65-68 | loading ends; the error records the failure message or the fallback; the list is kept |
| PostsSlice.PostStore.CreateFulfilled | src/store/postsSlice.ts:69-71 | the new record is put in front of the unchanged old list |
| PostsSlice.PostStore.UpdateFulfilled | src/store/postsSlice.ts:72-77 | the list becomes `Updated` of the old list, and the rest of the state is kept |
| PostsSlice.PostStore.DeleteFulfilled | src/store/postsSlice.ts:78-80 | the list becomes `Without` of the old list, and the rest of the state is kept |
| PostsSlice.PostStore.DispatchFetch | src/store/postsSlice.ts:12-18 | sends the list request; success replaces the list and clears the error; failure keeps the list and records the message; loading ends either way |
| PostsSlice.PostStore.DispatchCreate | src/store/postsSlice.ts:20-26 | sends the create request; success prepends the server's record stamped with the clock reading; failure changes nothing |
| PostsSlice.PostStore.DispatchUpdate | src/store/postsSlice.ts:28-34 | sends the update request; success updates the first matching record with the server's record under the requested id; failure changes nothing |
| PostsSlice.PostStore.DispatchDelete | src/store/postsSlice.ts:36-42 | sends the delete request; success removes every record with the id; failure changes nothing |
| FileUpload.Accepted | src/components/FileUpload.tsx:23-30 | every kept file is valid; every valid file of the batch is kept; nothing outside the batch appears |
| FileUpload.Rejected | src/components/FileUpload.tsx:23-30 | every refused file is invalid; every invalid file of the batch is listed; nothing outside the batch appears |
| FileUpload.RejectionEntries | src/components/FileUpload.tsx:28 | one entry per refused file, in batch order: the file name, a colon and the validator's message |
| FileUpload.PartitionBatch | src/components/FileUpload.tsx:23-30 | the accepted and refused files together are exactly the batch, as a multiset |
| FileUpload.AcceptedAppend | src/components/FileUpload.tsx:23-37 | intake keeps batch order: accepting from two consecutive batches is accepting from each in turn |
| FileUpload.ErrorEmptyIff | src/components/FileUpload.tsx:32-34 | the error text is empty exactly when no file was refused |
| FileUpload.GetFileIcon | src/components/FileUpload.tsx:72-77 | the image icon is shown exactly for `image/` types |
| FileUpload.AcceptedFileIcon | src/components/FileUpload.tsx:72-77 | among accepted files, only a PDF gets the document icon |
| FileUpload.RemoveFileAsWrittenEmpties | src/components/FileUpload.tsx:62-66 | removal as written empties the list, whatever index is passed |
| FileUpload.RemovalDiscrepancy | src/components/FileUpload.tsx:62-66 | with at least two attachments and an index in range, the intended removal keeps all but one while removal as written keeps none |
| FileUpload.RemoveAt | src/components/FileUpload.tsx:62-66 | the intended removal: an index in range drops exactly that entry and keeps the order of the others; any other index keeps the list |
| FileUpload.Uploader.constructor | src/components/FileUpload.tsx:11-14 | the picker starts on the parent's list with no error |
| FileUpload.Uploader.HandleFiles | src/components/FileUpload.tsx:16-39 | with no file list nothing changes; otherwise the accepted files are appended to the list in batch order, the error becomes the joined rejection entries, and the parent is notified exactly when some file was accepted |
| FileUpload.Uploader.HandleRemoveFile | src/components/FileUpload.tsx:62-66 | as written: the list becomes the shadowed filter's result, which is empty for every index, and the error is cleared |
| FileUpload.Uploader.HandleRemoveFileIntended | src/components/FileUpload.tsx:62-66 | the corrected handler: the list becomes the intended removal of the entry at the index (one entry fewer when the index is in range), and the error is cleared |
| Form.FieldErrorSpec | src/components/Form.tsx:44-54 | a blank value is reported as missing; a non-blank value that is too short is reported as too short; the value passes exactly when it is non-blank and long enough |
| Form.TitleErrorSpec | src/components/Form.tsx:44-48 | a title is missing when blank, too short under 3 code units, and passes otherwise |
| Form.BodyErrorSpec | src/components/Form.tsx:50-54 | a body is missing when blank, too short under 10 code units, and passes otherwise |
| Form.UntrimmedLengthCounts | src/components/Form.tsx:44-69 | "  a" passes the title check and is submitted as the one-character title "a" |
| Form.PostForm.constructor | src/components/Form.tsx:14-19 | the form starts with empty fields, no attachments and no errors |
| Form.PostForm.SeedFrom | src/components/Form.tsx:21-31 | editing a post copies its title and body and keeps the attachments; no post clears the fields and the attachments; errors are untouched |
| Form.PostForm.HandleChange | src/components/Form.tsx:33-39 | the edited field takes the value and loses its error; the other field and its error are kept |
| Form.PostForm.ValidateBody | src/components/Form.tsx:41-58 | the errors become the two checks' results, and the result is true exactly when both fields pass |
| Form.PostForm.HandleSubmit | src/components/Form.tsx:60-76 | submits exactly when both fields pass; the submission holds the trimmed title and body (never empty) and the attachments, and the form is reset; otherwise the fields are kept and the errors shown |
| Form.PostForm.HandleFilesChange | src/components/Form.tsx:78-80 | the attachments are replaced; fields and errors are kept |

## Left out

- Network transport, promises, and the order in which concurrent actions settle. Each action is modelled with its call already settled (`Settlement`). The server's answer and the clock reading are parameters.
- A rejected create, update or delete has no handler in the store, so the model leaves the state unchanged. The error these actions throw back to the caller is not modelled.
- Component rendering, drag state, the file dialog, previews through `FileReader`, and the `formatSize` label, which is floating-point arithmetic.
- Hook mechanics (re-render, effect scheduling, stale closures). Each handler is a method on the component's state. A call of `onChange`/`onSubmit` is an assignment of the parent's list or a returned value.
- The shell that wires the store to the list and form views. `PostsSlice.Session` only plays through one client session as a scenario.
- Types.UniqueIds is not an invariant of `PostStore`, because the store does not enforce it. The lemmas say which reducers preserve it.
- The browser's `File` object is reduced to its name, declared media type and size.

## Findings

| source | as written | input that shows it | evidently intended | confidence | as-written member | corrected member |
|---|---|---|---|---|---|---|
| src/components/FileUpload.tsx:62-66 | the filter callback's own position parameter shadows the index argument, so it compares each position with itself and keeps nothing | files [f1, f2], index 0: the list becomes [] | remove only the entry at the given index | high, not executed | FileUpload.RemoveFileAsWrittenEmpties | FileUpload.RemoveAt |
