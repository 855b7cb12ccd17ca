# ai-data-processing: upload gate and chat screen state, in Dafny

This project models the two parts of the data-processing console that hold real logic.

- **The file upload component** (`FileUpload`). Every file in a dropped or selected batch is checked against an allow-list of three MIME types (`text/csv`, the OOXML spreadsheet type, `application/vnd.ms-excel`). The type check comes first. A file of an allowed type is then checked against a 10 MiB ceiling, and the ceiling itself is accepted. Each file is classified as `csv` or `xlsx` and becomes one record in the uploaded-file list. The record's status is `success` or `error` and carries the validation message. The component can remove the records with a given id, clear the list, and split the list into successful and failed uploads. The list is a `seq` field of the class `FileUploadComponent`. `processFiles`, `removeFile` and `clearAllFiles` are methods that reassign it. The `forEach`/`push` loop that builds a batch's records is the method `BuildNewFiles`, proved against the function `Records`.
- **The data processor screen** (`DataProcessor`). Sending a message does nothing when the input is blank after JavaScript's `trim` (`JsString`). Otherwise it appends the user's message and a fixed assistant reply, numbered `length + 1` and `length + 2`, and clears the input. Enter sends and Shift+Enter does not. Side-panel clicks select a step, expand or collapse a step, and open or close its adjustment panel. The class invariant is that the message at position `i` has id `i + 1`. The opening transcript (ids 1 to 4) establishes it, and every send preserves it. It is what makes the message ids unique list keys.

The staged cleaning/transform/join/aggregate pipeline the console describes is not implemented in the repository. Its steps and result tables are fixed literals, so it is not modelled. A result table attached to an assistant message is carried only as the name of the fixed table (`ResultTable`).

Three facts about the upload code shape the model:
- Accepted and rejected files live in one list. Each entry carries a `success` or `error` status, and `successFiles`/`errorFiles` are filters of that list.
- `validateFile` reports a rejection by one of two fixed messages, one for the type and one for the size.
- `application/vnd.ms-excel` is classified as `xlsx`, like every type other than `text/csv`.

## Model

| member | source | states |
|---|---|---|
| FileUpload.ValidateFile | src/components/FileUploadComponent.tsx:21-35 | valid iff the MIME type is in the allow-list and size ≤ 10 MiB; no error exactly when valid; a disallowed type gets the type message, an allowed but oversized file the size message |
| FileUpload.TypeErrorPrecedesSizeError | src/components/FileUploadComponent.tsx:28-33 | a file that is both of a disallowed type and oversized gets the type error, not the size error |
| FileUpload.SizeBoundInclusive | src/components/FileUploadComponent.tsx:31-34 | for an allowed type, 10485760 bytes is accepted and 10485761 bytes is rejected with the size message |
| FileUpload.GetFileType | src/components/FileUploadComponent.tsx:37-39 | the kind is csv iff the MIME type is `text/csv` |
| FileUpload.RejectedTypesAreXlsx | src/components/FileUploadComponent.tsx:37-39 | a file of a disallowed type is still classified, as xlsx |
| FileUpload.Records | src/components/FileUploadComponent.tsx:43-58 | the `newFiles` array of a batch has one record per file and no pending record |
| FileUpload.NewRecord | src/components/FileUploadComponent.tsx:46-57 | the record carries the given id, the file, its name and size, its kind; it is never pending; success iff the file is valid; its message is the validation error |
| FileUpload.BuildNewFiles | src/components/FileUploadComponent.tsx:42-58 | the push loop yields exactly the batch's records: one per file, the k-th built from the k-th file and id |
| FileUpload.RecordsOnePerFile | src/components/FileUploadComponent.tsx:45-57 | a batch yields as many records as files, in file order, none pending, each copying name and size, success iff its file validated, message equal to the validation error |
| FileUpload.RecordsAppend | src/components/FileUploadComponent.tsx:60 | processing two batches in turn appends the same records as processing their concatenation |
| FileUpload.MixedBatch | src/components/FileUploadComponent.tsx:45-58 | in one batch a small CSV succeeds while a 12 MiB CSV gets the size message and a .docx the type message |
| FileUpload.FileUploadComponent.constructor | src/components/FileUploadComponent.tsx:17 | the list starts empty |
| FileUpload.FileUploadComponent.ProcessFiles | src/components/FileUploadComponent.tsx:41-60 | the new list is the old list followed by the batch's records; existing entries are untouched; no entry is pending |
| FileUpload.FileUploadComponent.RemoveFile | src/components/FileUploadComponent.tsx:100-102 | the new list is the old one filtered by id |
| FileUpload.FileUploadComponent.ClearAllFiles | src/components/FileUploadComponent.tsx:104-106 | the list becomes empty |
| FileUpload.Filter | src/components/FileUploadComponent.tsx:116-117 | the result holds exactly the entries satisfying the predicate and is no longer than the input |
| FileUpload.FilterAppend | src/components/FileUploadComponent.tsx:101 | filtering distributes over concatenation, so kept entries stay in their original order |
| FileUpload.FilterKeepsAll | src/components/FileUploadComponent.tsx:101 | filtering a list none of whose entries fails the predicate returns the list itself |
| FileUpload.Without | src/components/FileUploadComponent.tsx:100-102 | an entry survives removal iff it was in the list and has a different id |
| FileUpload.RemoveAbsentIdIsIdentity | src/components/FileUploadComponent.tsx:100-102 | removing an id no entry has leaves the list unchanged |
| FileUpload.RemoveKeepsOrder | src/components/FileUploadComponent.tsx:100-102 | removal commutes with concatenation and drops a single entry exactly when its id matches |
| FileUpload.PartitionCounts | src/components/FileUploadComponent.tsx:116-117 | every entry is counted once among success, error and pending; with none pending, the pending filter is empty |
| FileUpload.FileUploadComponent.SuccessFiles | src/components/FileUploadComponent.tsx:116 | exactly the entries with status success |
| FileUpload.FileUploadComponent.ErrorFiles | src/components/FileUploadComponent.tsx:117 | exactly the entries with status error; when no entry is pending, the success and error counts sum to the list length |
| JsString.TrimStart | src/components/DataProcessor.tsx:168 | the result is a suffix of the input and does not start with white space |
| JsString.TrimStartDropsTrimmable | src/components/DataProcessor.tsx:168 | everything dropped from the front is white space or a line terminator |
| JsString.TrimEnd | src/components/DataProcessor.tsx:168 | the result is a prefix of the input and does not end with white space |
| JsString.TrimEndDropsTrimmable | src/components/DataProcessor.tsx:168 | everything dropped from the back is white space or a line terminator |
| JsString.Trim | src/components/DataProcessor.tsx:168 | `trim` returns something no longer than its input that neither starts nor ends with white space; `TrimIsInfixAndIdempotent` adds that it is a contiguous piece of the input with only white space removed on either side, and `TrimEmptyIffBlank` that it is empty exactly for blank input |
| JsString.IsBlank | src/components/DataProcessor.tsx:168 | the blank test: every character is white space or a line terminator; `TrimEmptyIffBlank` proves it equals an empty `trim` result |
| JsString.TrimEmptyIffBlank | src/components/DataProcessor.tsx:168 | `trim` yields the empty string iff every character is white space or a line terminator |
| JsString.TrimIsInfixAndIdempotent | src/components/DataProcessor.tsx:168 | the trimmed string is a contiguous piece of the input and everything before and after it is white space or line terminators; trimming twice equals trimming once |
| DataProcessor.Exchange | src/components/DataProcessor.tsx:170-188 | the two new messages: the user's with the input as content, then an assistant reply; appended to a transcript numbered by position, they keep it numbered |
| DataProcessor.AfterSend | src/components/DataProcessor.tsx:167-192 | a blank input changes nothing; otherwise the transcript gains two messages after an unchanged prefix: first the user's, with id `length + 1`, the input as content and no table; then the fixed assistant reply, with id `length + 2` and the updating table; the input is cleared; numbering by position is preserved |
| DataProcessor.SendIsNoOpIffBlank | src/components/DataProcessor.tsx:168 | sending leaves transcript and input unchanged iff the trimmed input is empty |
| DataProcessor.InitialIdsArePositions | src/components/DataProcessor.tsx:46-94 | the opening transcript has four messages numbered 1 to 4 by position |
| DataProcessor.PositionIdsAreUnique | src/components/DataProcessor.tsx:246-247 | a transcript numbered by position has no two messages with the same id |
| DataProcessor.Session | src/components/DataProcessor.tsx:167-192 | after a sequence of sends the earlier transcript is an unchanged prefix and the transcript has grown by two messages per non-blank input |
| DataProcessor.SessionKeepsNumbering | src/components/DataProcessor.tsx:170-190 | any sequence of sends keeps the transcript numbered by position |
| DataProcessor.SessionIdsUnique | src/components/DataProcessor.tsx:247 | from the opening transcript, every sequence of sends leaves the message ids unique |
| DataProcessor.Toggle | src/components/DataProcessor.tsx:342 | the result is the clicked step iff that step was not already the current one, and otherwise nothing |
| DataProcessor.ToggleProperties | src/components/DataProcessor.tsx:342 | from nothing expanded, or from that step expanded, clicking the same step twice restores the state; clicking another step while one is expanded moves the expansion to it |
| DataProcessor.CollapseAndReexpandKeepsAdjustment | src/components/DataProcessor.tsx:340-387 | collapsing a step with its adjustment panel open and expanding it again shows the panel again, because the chevron leaves the open adjustment alone |
| DataProcessor.DataProcessorScreen.constructor | src/components/DataProcessor.tsx:46-100 | the opening transcript, an empty input, step 4 selected, nothing expanded, no adjustment panel open |
| DataProcessor.DataProcessorScreen.SetInput | src/components/DataProcessor.tsx:287 | typing replaces the input and changes nothing else |
| DataProcessor.DataProcessorScreen.SendMessage | src/components/DataProcessor.tsx:167-192 | the new transcript and input are those `AfterSend` gives; ids stay numbered by position; panel state is untouched |
| DataProcessor.DataProcessorScreen.KeyPress | src/components/DataProcessor.tsx:194-199 | Enter without Shift sends; in the handler, Shift+Enter and other keys leave transcript and input unchanged (the newline they type arrives through `SetInput`) |
| DataProcessor.DataProcessorScreen.SendEnabled | src/components/DataProcessor.tsx:295 | the send button is enabled exactly when sending would change the transcript, i.e. when the trimmed input is not empty |
| DataProcessor.DataProcessorScreen.AdjustmentVisible | src/components/DataProcessor.tsx:355-387 | a step's adjustment panel is rendered exactly when that step is expanded and its adjustment is the open one |
| DataProcessor.DataProcessorScreen.SelectStep | src/components/DataProcessor.tsx:324 | the clicked step becomes the selected one; nothing else changes |
| DataProcessor.DataProcessorScreen.ToggleExpanded | src/components/DataProcessor.tsx:340-343 | the expanded step toggles by the rule above; the selection does not change because the click stops propagation |
| DataProcessor.DataProcessorScreen.ToggleAdjustment | src/components/DataProcessor.tsx:355-375 | on the expanded step, where the button is rendered, the open adjustment panel toggles by the same rule; nothing else changes |
| DataProcessor.DataProcessorScreen.CancelAdjustment | src/components/DataProcessor.tsx:387-471 | from the open panel of the expanded step, where the button is rendered, Cancel closes the adjustment panel; nothing else changes |

## Left out

- File ids come from `Date.now()` and `Math.random()` (src/components/FileUploadComponent.tsx:47). They are parameters of `ProcessFiles`, one per file. Nothing here claims they are unique, because the code does not guarantee it.
- `formatFileSize` (src/components/FileUploadComponent.tsx:108-114) is floating-point logarithm and rounding, used only for display.
- Drag-and-drop handling, `isDragging` and the file-input reset (src/components/FileUploadComponent.tsx:63-98) are browser-event plumbing. They only call `processFiles` on a non-empty batch, and `ProcessFiles` also covers the empty batch.
- Message timestamps (`new Date()`), `scrollToBottom`, the fetch to `/api/test`, the HTTP echo route and the page composition are clock, DOM and network I/O.
- JSX rendering and styling are left out, apart from the two render conditions in the table (`SendEnabled`, `AdjustmentVisible`).
- The browser's default key actions are not modelled. A typed character or the newline of Shift+Enter reaches the model only through `SetInput`, the text area's `onChange`. On plain Enter the handler's `preventDefault` suppresses the newline, so no `SetInput` follows.
- The "Apply" and "Re-run" buttons have no handlers in the code.
- The processing steps and the contents of the result tables are fixed literals. The tables are represented by their names only.
- React's batched updates are not modelled: the new message ids are computed from the rendered `messages` while the append uses `prev`. Sends are modelled one at a time, with `prev` equal to `messages`.
- `String.prototype.trim` is modelled by its set of white-space and line-terminator code points. The send rule is stated with `IsBlank` ("every character is trimmable"), which `TrimEmptyIffBlank` proves equivalent to an empty `trim` result. Strings are sequences of Unicode scalar values, not UTF-16 code units.
