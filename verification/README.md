# Nova gateway: verified models

Nova is the gateway in front of a data platform: it signs people in, takes uploads, shows and changes table
documentation, measures catalogs, keeps credentials for outside systems and searches table names. This project
models the parts of its backend (Rust, under `backend/src`) that hold state over time or build and read text by
hand, and proves what they promise.

| module | what it models |
|---|---|
| `CsvReader` | the CSV reader, proved against an automaton that reads one character at a time and knows one line ending |
| `Tabular` | cell coercion, the CSV and JSON parsers, column types |
| `Quoting` | quoted identifiers and literals, the column comment statement, and a lexer that reads them back |
| `InsertText` | the text of the INSERT statements of a load, read back row by row |
| `StatementText` | the texts of the other four statements of a load, read back by a small parser |
| `StagedLoad` | an upload as a sequence of statement texts, executed by an engine that reads them, may fail at each and may lose an answer |
| `Sessions` | the session store, and token refresh as interleaved steps of many requests |
| `Documentation` | validation, difference, patch and commit of table documentation |
| `DocumentationProtocol` | many documentation and column writes at once, under the per-table lock, with commits that land late |
| `Aggregation` | saturating sums over results that arrive in any order |
| `MetricsCache` | the metrics cache: single-flight scans, one round at a time |
| `AccessChanges` | the sliding-window limiter and the versioned update in front of it |
| `Connections` | the rules for a credential, its store payload, and rotations |
| `PercentEncoding` | names as URL path segments |
| `CatalogSearch` | the bounded search with its labelled early exit |
| `Runs` | runs of a state machine, and what every run keeps |
| `Wrappers`, `Text`, `Decimal`, `Sorting` | optional values, strings, decimal texts and sorting as the Rust standard library has them |

Methods follow the source's loops and field updates; each is proved against a function or a predicate, and the
lemmas say what those mean. Protocols are state machines: a step function per atomic action of the source, an
invariant, theorems over every reachable state and every list of steps, and the state that an undisturbed run ends in. `dafny verify dfyconfig.toml` checks the whole project.

Some claims one might expect are false of the code. The exact statement is proved instead, and a run or an input
shows where the simple claim fails:

- A refresh token is never presented again once it is spent. It is, exactly in a session that has lost the token
  which replaced it: an exchange failed although the provider had spent the token, or an answer with a new one was
  thrown away (`Sessions.ReplayExactly`, `Sessions.LostExactly`). Until the failed attempt has removed the session,
  a request that already waits for it presents the spent token (`Sessions.FailureAllowsReplay`,
  `Sessions.TwoRequestsCanWait`).
- Every documentation commit is authorised as the table stands when it lands. A commit that lands while its writer
  holds the table's lock is, exactly when the table is as its writer loaded it, or the writer is an administrator, or
  the request leaves the table with one of the writer's groups or does not speak of the owner
  (`DocumentationProtocol.AuthorisedExactly`). Handing the table to another group and removing its owner, posted
  again after a contended answer, fail this and change nothing (`DocumentationProtocol.RepostedGiveAway`). A commit
  carries no requirement on the table, so one whose answer never came may still land when the lock has gone to
  another writer. Such a commit was authorised on what its writer loaded (`DocumentationProtocol.AuthorisedWhenDecided`),
  and can change a table that the writer may no longer edit (`DocumentationProtocol.LateCommitIsUnauthorised`).
- A failed upload leaves its target alone. It leaves it alone, or fills it with exactly the uploaded rows, the latter
  only if the swap took effect and its answer was lost (`StagedLoad.RealUpload`, `StagedLoad.SwapAndDrop`).
- Coercing a cell keeps its text. It does except for `-0`, a written-out null, and a finite float text other than
  the one its number is written as (`Tabular.CoerceKeepsTextExactly`): the cell `1.50` becomes 1.5
  (`Tabular.TrailingZeroIsLost`).
- The inferred type admits its column. It does unless a bigint column holds a JSON number outside `i64`
  (`Tabular.InferredTypeAdmitsExactly`, `Tabular.LargeJsonNumberIsTypedBigint`).
- The last line break of a CSV file may be missing. It may exactly when the last record is not one empty bare cell
  (`CsvReader.LastLineBreakOptional`).
- Search matches come sorted. An answer that is not cut is sorted exactly when no namespace with two different matches
  is listed twice (`CatalogSearch.UncutAnswerInOrderExactly`). For a cut answer the condition is enough
  (`CatalogSearch.AnswerIsWantedAndInOrder`) but not needed. A catalog that lists a namespace twice shows both
  (`CatalogSearch.RepeatedNamespaceIsOutOfOrder`).
- A connection that was created can be rotated, and one whose creation failed cannot. It can exactly when the first of
  the two requests that create it was answered and the second was not rejected, whatever the caller was told
  (`Connections.RotatableExactly`).
- Every rotation that was accepted and written shows in the values. All do in a managed connection, and in any other
  when no rotation is accepted while another one is under way (`Connections.RotationsAddUp`). Of two that overlap,
  exactly the second one's fields survive in every connection that is not managed
  (`Connections.OverlappingRotationLosesValues`).

One place where the documentation promises more than the code does: the comment on `may_edit` says that a write
to a table without an owner must claim it (`backend/src/catalog_docs.rs:507-513`). A column write asks only
`may_edit` and claims nothing. The model follows the code (`DocumentationProtocol.ColumnWriteClaimsNothing`).

## Model

| member | source | states |
|---|---|---|
| CsvReader.ReadCsvRecords | backend/src/demo.rs:571-658 | the index-driven reader with its four flags and two-character jumps yields, for every text, exactly the records of a look-ahead-free automaton on the text with one line ending |
| CsvReader.QuoteSeenReadsAsPlain | backend/src/demo.rs:590-595 | after a closing quote the reader's state is one that only another quote could tell apart |
| CsvReader.TwoSteps | backend/src/demo.rs:585-589 | a doubled quote, which the reader jumps over, is two steps of the automaton |
| CsvReader.BreakStep | backend/src/demo.rs:596-604 | a line break of any of the three styles is one step of the automaton |
| CsvReader.BlindToLineEndings | backend/src/demo.rs:596-643 | a text and the same text with every CRLF and lone CR replaced by LF read as the same records, inside and outside quotes |
| CsvReader.WrittenNormalises | backend/src/demo.rs:596-643 | a file written with any one line ending normalises to the file written with LF |
| CsvReader.ReadUndoesWrite | backend/src/demo.rs:571-658 | section 2 of RFC 4180: reading a written file gives back every cell and every quoted flag, with any of the three line endings |
| CsvReader.LastLineBreakOptional | backend/src/demo.rs:652-656 | the missing last line break loses nothing exactly when the last record is not one empty bare cell |
| CsvReader.ReadingIsWritable | backend/src/demo.rs:571-658 | whatever the text, no record is empty and every cell is one a writer could have written |
| CsvReader.WriteOfReadReadsBack | backend/src/demo.rs:571-658 | rewriting what was read and reading it again changes nothing |
| CsvReader.WritableIsExactlyTheImage | backend/src/demo.rs:571-658 | the record lists the reader can produce are exactly the writable ones |
| Tabular.CoerceToIntegerExactly | backend/src/demo.rs:660-672 | the texts that become the integer n are its decimal text and, for zero, "-0"; n must be an i64 |
| Tabular.IntegersSurvive | backend/src/demo.rs:719-727 | every i64 comes back from its decimal text; an integer text outside i64 stays text |
| Tabular.CoerceKeepsTextExactly | backend/src/demo.rs:719-735 | showing the coerced value gives the cell's text back except for a written-out null, "-0", and a finite float text that is not the one its number is written as |
| Tabular.FloatTextExactly | backend/src/demo.rs:674-717 | the hand-written scan accepts exactly a grammar: a sign or none, an integer without needless zeros, a point, digits, and an exponent or none |
| Tabular.CoerceToFloatExactly | backend/src/demo.rs:719-735 | a cell becomes a float exactly when its text is in that grammar and finite; the float is the text its number is written as |
| Tabular.CoerceToNullExactly | backend/src/demo.rs:719-721 | a cell becomes null exactly when it is empty or says null, in letters of either case |
| Tabular.TrailingZeroIsLost | backend/src/demo.rs:728-731 | the cell "1.50" becomes 1.5 and is no longer shown as it was written |
| Tabular.ParseCsv | backend/src/demo.rs:506-538 | the answer for a text: a table of the records under the header, or the first reason to refuse it |
| Tabular.MissingHeaderExactly | backend/src/demo.rs:513-517 | a file is refused for its header exactly when every header cell is white space |
| Tabular.ParseRecords | backend/src/demo.rs:513-537 | the loop over the records answers with one row per record, or names the first record that is not as wide as the header |
| Tabular.BlankLineGoes | backend/src/demo.rs:508-512 | a record is dropped exactly when it is one bare cell of white space; the others stay, in their order |
| Tabular.CsvCellsExactly | backend/src/demo.rs:514-534 | every value of an accepted file is the one its own cell stands for, a quoted cell as it is and a bare one without the white space at its ends; every column name is its header cell, trimmed |
| Tabular.CsvIsRectangular | backend/src/demo.rs:519-536 | every row of an accepted file has one value per header column and per cell of its record |
| Tabular.CsvAnswerUnique | backend/src/demo.rs:506-538 | the parser's contract admits one answer per text |
| Tabular.ParseJsonTable | backend/src/demo.rs:540-567 | an array of objects becomes the keys in the order they are first met and one row per element; anything else is refused for the right reason |
| Tabular.JsonCellsExactly | backend/src/demo.rs:556-565 | every cell of an accepted document is the value of the element's own field with the column's name, and null where the element has no such field or is no object |
| Tabular.JsonColumnsExactly | backend/src/demo.rs:543-552 | the columns of an accepted document are exactly the names of the fields of its objects |
| Tabular.AddKeys | backend/src/demo.rs:545-550 | the inner loop adds each unseen key once, in order |
| Tabular.FirstSeenDistinct | backend/src/demo.rs:543-552 | no column appears twice |
| Tabular.FirstSeenOrder | backend/src/demo.rs:543-552 | an earlier column's key is met before the later column's key ever is |
| Tabular.AllKeysExactly | backend/src/demo.rs:543-552 | the columns come from exactly the keys of the elements |
| Tabular.JsonAnswerUnique | backend/src/demo.rs:540-567 | the JSON parser's contract admits one answer per document |
| Tabular.InferType | backend/src/data.rs:633-675 | boolean, bigint and double are each answered exactly for the columns they describe, varchar for the rest, and a column of nulls is boolean |
| Tabular.InferredTypeAdmitsExactly | backend/src/data.rs:633-675 | the inferred type admits every value of its column unless a bigint column holds a number outside i64 |
| Tabular.LargeJsonNumberIsTypedBigint | backend/src/data.rs:645-651 | the concrete column that shows the exception |
| Tabular.CsvColumnsAreAdmitted | backend/src/data.rs:633-675 | no column of a CSV upload meets that exception |
| Quoting.LexQuoted | backend/src/data.rs:701-703 | sections 5.2 and 5.3 of ISO/IEC 9075-2: a quoted name or text at the head of a statement is one token, whatever it holds, and lexing goes on right behind it |
| Quoting.LexUndoesSpell | backend/src/catalog_docs.rs:930-955 | any statement put together from names, literals, numbers, keywords and symbols lexes to exactly those tokens |
| Quoting.CommentLexesBack | backend/src/catalog_docs.rs:937-955 | the column comment statement lexes to the four original names, the original text or NULL, and nothing else |
| Quoting.CommentInjective | backend/src/catalog_docs.rs:930-955 | two equal statements name the same column and carry the same text |
| InsertText.ReadValue | backend/src/data.rs:687-699 | each kind of value, in each column type, is read back as what is to be stored |
| InsertText.InsertLexes | backend/src/data.rs:459-480 | an INSERT of any names and rows lexes to its intended tokens |
| InsertText.InsertReadsBack | backend/src/data.rs:459-480 | the engine reads from the text exactly the table named and the rows written, cell by cell |
| StatementText.SchemaReadsBack | backend/src/data.rs:502-511 | whatever the two names hold, the schema statement reads as creating exactly that schema |
| StatementText.TableReadsBack | backend/src/data.rs:518-523 | the table statement reads as creating exactly that table, with the column names and types in order, whatever the header cells hold |
| StatementText.SwapReadsBack | backend/src/data.rs:539-544 | the swap statement reads as replacing the target by the staging table, and not the other way round |
| StatementText.DropReadsBack | backend/src/data.rs:535-545 | the drop statement reads as dropping exactly that table |
| StatementText.InsertIsRead | backend/src/data.rs:473-478 | an INSERT is taken for no other kind of statement |
| StagedLoad.Engine.Execute | backend/src/data.rs:443-547 | a statement text takes effect whole or not at all, as what it reads as; it may fail for reasons of its own, and may be reported as failed although it took effect |
| StagedLoad.StagingIsNotTarget | backend/src/data.rs:445-447 | the staging table differs from the target for every engine that folds names piece by piece and to something |
| StagedLoad.StagingNamesDiffer | backend/src/data.rs:443-447 | two loads share a staging name only when they are of the same table at the same time |
| StagedLoad.InsertChunk | backend/src/data.rs:462-479 | one INSERT adds exactly its rows, or nothing; and it succeeds exactly when it does not fail of itself and every value fits its column |
| StagedLoad.InsertRows | backend/src/data.rs:459-482 | the thousand-row chunks add up to all rows, once each and in order, and the count is theirs |
| StagedLoad.LoadRows | backend/src/data.rs:449-483 | success means the new table holds exactly the rows; no other table changes either way |
| StagedLoad.SwapAndDrop | backend/src/data.rs:539-547 | the target is replaced by the staged rows or left alone, success is reported only in the first case, and the staging table is gone unless its drop failed |
| StagedLoad.LoadAndSwap | backend/src/data.rs:525-547 | after a failure the target is untouched, or holds all the rows because the answer of the swap was lost; the staging table outlives the load only if its own drop failed |
| StagedLoad.Prepare | backend/src/data.rs:485-513 | parsing and typing answer before any statement, and what they answer can be written |
| StagedLoad.UploadInto | backend/src/data.rs:485-548 | the target is untouched or holds exactly the parsed rows, for given target and staging names; the latter after a failure only if the answer of the swap was lost |
| StagedLoad.RealUpload | backend/src/data.rs:485-548 | whatever statements fail and whatever answers are lost: the target is untouched or holds exactly the parsed rows; success means the latter, with their number, and a failure means the former unless the answer of the swap was lost; no third table changes, no schema but the target's is added, the staging table is gone unless its drop failed; and when nothing fails of itself or is lost, the upload succeeds exactly when the engine can take its column names and values, whether or not the schema was there |
| StagedLoad.OneAnswer | backend/src/demo.rs:506-567 | an upload stands for one table or for one error |
| StagedLoad.CsvTakenExactly | backend/src/data.rs:633-675 | an engine takes a CSV upload exactly when it parses and its header names are distinct, as the engine compares names, and not empty |
| StagedLoad.ChunkFitsExactly | backend/src/data.rs:687-699 | the engine takes a chunk exactly when each value is one its column's type admits |
| Sessions.SessionStore.Insert | backend/src/auth.rs:935-955 | a new session gets its full lifetime, expired ones leave, and the store never passes its limit |
| Sessions.SessionStore.Find | backend/src/auth.rs:959-965 | a session is found exactly before its deadline, and an expired one is dropped |
| Sessions.SessionStore.Remove | backend/src/auth.rs:967-971 | removal takes out this session and no other |
| Sessions.LatestTokensAreKept | backend/src/auth.rs:856-873 | whatever the responses of a session omit, the access token kept is the last one, and the refresh token and the ID token are each the last one sent |
| Sessions.LatestTokensAreHeld | backend/src/auth.rs:1286-1291 | in every reachable state a session holds the last access token it took, and the last refresh token and ID token it was sent |
| Sessions.StepKeeps | backend/src/auth.rs:1231-1292 | every step of requests, refreshes, logins, logouts and the clock keeps the protocol's invariant |
| Sessions.ReachableIsSound | backend/src/auth.rs:1231-1292 | so the invariant holds in every state any run reaches |
| Sessions.ServedFromOneResponse | backend/src/auth.rs:1268-1292 | in every interleaving the identity and the access token a request gets come from one token response |
| Sessions.SubjectServed | backend/src/auth.rs:1268-1292 | in every run the subject a request is served as is the one that the sign-in of its session, or the verification of a refresh by one of the session's requests, established, and the access token served is the one that this sign-in or refresh brought |
| Sessions.TakenIsWhatCame | backend/src/auth.rs:1286-1291 | in every run the responses behind a session's tokens are the one of its sign-in and then those its requests exchanged and committed, in order |
| Sessions.SignInServes | backend/src/auth.rs:889-898 | a sign-in for which there is room is served with its own access token, for the subject it was verified for |
| Sessions.RefreshServes | backend/src/auth.rs:1268-1292 | a request that waits for a session with a due refresh is served with the new access token, for the subject just verified; the whole state after it |
| Sessions.HeldTokenServes | backend/src/auth.rs:1236-1266 | a request that waits for a session with time left is served with what the session holds, and changes nothing else |
| Sessions.DueExactly | backend/src/auth.rs:902-911 | a refresh is due exactly from the later of one minute before the end and half of the lifetime on |
| Sessions.SessionLives | backend/src/auth.rs:935-971 | unless it is signed out, every look-up of a session before its deadline finds it, in every run |
| Sessions.OneHolderPerSession | backend/src/auth.rs:1236-1248 | at most one request is inside a session's lock |
| Sessions.ReplayExactly | backend/src/auth.rs:1268-1292 | a spent refresh token is presented exactly in a session that has lost the token which replaced it, hence never before an attempt has failed |
| Sessions.LostExactly | backend/src/auth.rs:1239-1292 | a session loses a token exactly when an exchange fails after the provider spent the stored one, or when the answer that replaces it is thrown away |
| Sessions.LostAttemptLeaves | backend/src/auth.rs:1239-1248 | a failed attempt leaves the credentials and frees the lock before the session is removed |
| Sessions.FailureAllowsReplay | backend/src/auth.rs:1239-1248 | whenever two requests wait for a due session, losing the first exchange lets the second present the spent token |
| Sessions.TwoRequestsCanWait | backend/src/auth.rs:1231-1248 | a sign-in, the token's lifetime and two look-ups reach such a state |
| Sessions.ServedTokenHasTimeLeft | backend/src/auth.rs:900-911 | a token served without a refresh had more than its refresh window left |
| Sessions.RefreshesAreSpaced | backend/src/auth.rs:889-911 | the next attempt comes no earlier than the lifetime less the window after the last success, hence half a lifetime |
| Sessions.StoreIsBounded | backend/src/auth.rs:935-955 | the store never holds more than 100,000 sessions, each under its own deadline |
| Sessions.RemovedForGood | backend/src/auth.rs:967-971 | after the removal of a failed attempt, or a logout, every later look-up fails |
| Sessions.DeadlineIsFinal | backend/src/auth.rs:957-965 | no refresh moves the deadline, and from it on every look-up fails |
| Documentation.CheckTags | backend/src/catalog_docs.rs:623-646 | a tag list passes exactly when it fits; otherwise the first broken rule, at the first tag that breaks it, is named |
| Documentation.ValidateUpdate | backend/src/catalog_docs.rs:615-683 | exactly the acceptable requests pass, in normal form; a refusal names the first rule broken |
| Documentation.DescriptionIsTrimmed | backend/src/catalog_docs.rs:565-582 | a stored description is the text sent with white space taken off its two ends and nothing else, and is dropped exactly when the text is all white space |
| Documentation.AcceptedAsSent | backend/src/catalog_docs.rs:615-684 | owner and domain are stored as sent and an absent key stays absent; null or blank descriptions and null or empty tag lists are removals; otherwise the description is stored trimmed and all the tags sorted |
| Documentation.SlugExactly | backend/src/catalog_docs.rs:586-605 | tags and domains are the texts of at most 32 and 40 characters over their alphabets |
| Documentation.TagOrderIsIrrelevant | backend/src/catalog_docs.rs:643-645 | the order in which tags are sent does not show in what is stored |
| Documentation.SplitUndoesJoinTags | backend/src/catalog_docs.rs:430-436 | splitting the stored property gives back the tags that were joined |
| Documentation.TagsReadPartByPart | backend/src/catalog_docs.rs:429-436 | whatever text is stored, each part between commas reads as one tag without the white space at its ends, and blank parts as none |
| Documentation.WriteDiff | backend/src/catalog_docs.rs:781-828 | the step-by-step patch is the difference between what is stored and what was sent |
| Documentation.DiffEffects | backend/src/catalog_docs.rs:781-828 | each property is set, removed or left exactly as its field demands, and none is both set and removed |
| Documentation.ChangedNamesTheEffects | backend/src/catalog_docs.rs:783-832 | the audit line names exactly the fields the patch sets or removes |
| Documentation.PatchMeansOverlay | backend/src/catalog_docs.rs:781-853 | the patched table reads as the current documentation with the request laid over it |
| Documentation.PatchTouchesNothingElse | backend/src/catalog_docs.rs:781-842 | every property the request did not name keeps its value |
| Documentation.NothingToCommitExactly | backend/src/catalog_docs.rs:830-832 | no commit is sent exactly when the overlay is the current view |
| Documentation.SameRequestTwice | backend/src/catalog_docs.rs:781-832 | the same request sent again finds nothing to change |
| Documentation.PatchIdempotent | backend/src/catalog_docs.rs:296-348 | posting the same patch again changes nothing more |
| Documentation.Commit | backend/src/catalog_docs.rs:296-348 | up to three requests with waits of 200 and 400 ms, ended by the first answer other than a contention; however many took effect, the patch is applied once or not at all, and once on success |
| DocumentationProtocol.StepKeeps | backend/src/catalog_docs.rs:752-926 | every step of every writer, and every commit that lands late, keeps the lock discipline and the rule |
| DocumentationProtocol.LandKeeps | backend/src/catalog_docs.rs:841-842 | a commit without requirements that lands late keeps the invariant, and disturbs nobody but the writer in that table's lock |
| DocumentationProtocol.AuthorisedWhenDecided | backend/src/catalog_docs.rs:760-842 | every commit, timely or late, carries the difference worked out on what its writer loaded, and its writer was authorised for it there |
| DocumentationProtocol.RuleIsAuthority | backend/src/catalog_docs.rs:514-561 | the edit rule and the claim rule together pass exactly the writers who are authorised for the computed patch: nobody else gets through and nobody entitled is refused |
| DocumentationProtocol.InGroupExactly | backend/src/catalog_docs.rs:501-505 | somebody is in a group exactly when they list its name, with a slash in front or without one |
| DocumentationProtocol.DocWriteGoesThrough | backend/src/catalog_docs.rs:752-853 | an authorised write with nothing in its way puts its patch on the table, answers with the overlay, frees the lock and changes nothing else |
| DocumentationProtocol.DocWriteEndsEarly | backend/src/catalog_docs.rs:752-832 | a write that is not authorised, or has nothing to change, ends without a commit |
| DocumentationProtocol.ThirdContentionEnds | backend/src/catalog_docs.rs:296-348 | after the third contended answer the writer gives up and the lock is free |
| DocumentationProtocol.EveryChangeIsACommit | backend/src/catalog_docs.rs:752-926 | a table changes only by a commit, and a commit is all a step ever does to the tables |
| DocumentationProtocol.PostLands | backend/src/catalog_docs.rs:296-348 | whichever earlier request took effect, one more leaves the patch applied once |
| DocumentationProtocol.RepostAuthorisedExactly | backend/src/catalog_docs.rs:514-561 | when the same patch is authorised again on the table it has made |
| DocumentationProtocol.AuthorisedExactly | backend/src/catalog_docs.rs:760-842 | a timely commit is authorised as the table stands exactly when it lands on the table as its writer loaded it, or the writer is an administrator, or the request leaves them in charge |
| DocumentationProtocol.AuthorisedAtCommitTime | backend/src/catalog_docs.rs:760-842 | with Nova the only writer, each timely commit is by an administrator, or the owner is one of the writer's groups, or the table is ownerless and this commit gives it to one of them, at that very moment; or it finds its own work done and changes nothing |
| DocumentationProtocol.LateCommitIsUnauthorised | backend/src/catalog_docs.rs:296-348 | the run in which a commit lands after its writer got no answer and the table was handed over, without authority and changing the table, for every two groups and every text |
| DocumentationProtocol.CommentsAreAllowed | backend/src/catalog_docs.rs:886-915 | each column statement runs while its writer may edit the table, unless a late commit landed there in between |
| DocumentationProtocol.ColumnWriteExactly | backend/src/catalog_docs.rs:886-915 | a column write runs its statement exactly for administrators, on tables without an owner, and for those in the owner group |
| DocumentationProtocol.ColumnWriteClaimsNothing | backend/src/catalog_docs.rs:886-915 | a column write on a table without an owner goes through for anybody and leaves it without an owner |
| DocumentationProtocol.AnswerIsTheOverlay | backend/src/catalog_docs.rs:760-853 | a finished write answers with its request laid over what it loaded, unless a late commit landed in between: no other write came between and none was lost |
| DocumentationProtocol.OneWriterPerTable | backend/src/catalog_docs.rs:688-698 | two writers are never inside the lock of one table |
| DocumentationProtocol.LockKeysDiffer | backend/src/catalog_docs.rs:685-690 | tables of different catalogs, namespaces or names never share a lock, unless a name holds a point |
| DocumentationProtocol.RepostedGiveAway | backend/src/catalog_docs.rs:296-348 | the runs in which a hand-over, or a removal of the owner, is posted again without authority and changes nothing, for every owner and every new owner |
| Aggregation.FoldLoads | backend/src/catalog_metrics.rs:307-338 | the fold's records and bytes are the true sums capped at the u64 maximum, and its last commit is the latest present one |
| Aggregation.FoldIgnoresOrder | backend/src/catalog_metrics.rs:191-198 | the arrival order does not show, even when the sums saturate |
| Aggregation.ScanCatalog | backend/src/catalog_metrics.rs:267-340 | a scan fails exactly when its catalog cannot be reached or a listing fails, with the first error met; else it counts every table and adds up the first 200, whatever order their loads finish in |
| Aggregation.ListTables | backend/src/catalog_metrics.rs:286-306 | the loop over the namespaces collects every table in order, or stops at the first error |
| Aggregation.AllTablesExactly | backend/src/catalog_metrics.rs:286-306 | the tables collected are none when a list fails, with the error of the first one that does, and otherwise those of every namespace, whole and in order |
| Aggregation.AddTotals | backend/src/catalog_metrics.rs:791-798 | the totals are the true sums, capped, over exactly the catalogs that are not pending |
| Aggregation.TotalsIgnoreOrder | backend/src/catalog_metrics.rs:791-798 | the order of the catalogs does not show in any total |
| Aggregation.SumIgnoresOrder | backend/src/catalog_metrics.rs:307-338 | sums over equal multisets are equal |
| MetricsCache.Cache.Claim | backend/src/catalog_metrics.rs:530-536 | a claim succeeds exactly when no scan of the catalog is in flight |
| MetricsCache.Cache.Release | backend/src/catalog_metrics.rs:539-545 | a release frees this catalog's slot and no other |
| MetricsCache.Cache.Store | backend/src/catalog_metrics.rs:553-589 | a good scan replaces numbers and time, a failed one only the error, or makes an entry of zeros |
| MetricsCache.StoreRemembers | backend/src/catalog_metrics.rs:553-589 | storing one more result keeps the entry a function of all results |
| MetricsCache.StepKeeps | backend/src/catalog_metrics.rs:425-545 | every step of background scans and of a round keeps the invariant |
| MetricsCache.CacheRefinesHistory | backend/src/catalog_metrics.rs:499-589 | in every reachable state an entry shows the last good scan's numbers and time, or zeros with the first failure's time, and the last result's error |
| MetricsCache.CacheShowsWhatWasFound | backend/src/catalog_metrics.rs:499-589 | in every run a catalog is shown exactly when a scan of it was stored, and shows what its stored scans had found, in the order in which they were stored |
| MetricsCache.GoodScanIsShown | backend/src/catalog_metrics.rs:559-570 | storing a good scan shows its numbers and the time without an error, and changes no other entry |
| MetricsCache.ScanEndsInItsEntry | backend/src/catalog_metrics.rs:514-527 | a background scan of a catalog whose slot is free starts, ends in its entry, and leaves the slot free |
| MetricsCache.RoundReachesEveryCatalog | backend/src/catalog_metrics.rs:425-497 | a round that finds the lock free and the slots of its catalogs free reaches every one of them; no other entry changes, and the lock is free again |
| MetricsCache.RemembersOneEntry | backend/src/catalog_metrics.rs:553-589 | the completed scans determine the entry |
| MetricsCache.EntriesStay | backend/src/catalog_metrics.rs:553-589 | an entry never disappears in any run |
| MetricsCache.FailureKeepsNumbers | backend/src/catalog_metrics.rs:553-589 | after a failed scan is stored, a catalog shows the numbers and time of the last good scan in its history, or zeros if there is none |
| MetricsCache.OneScanPerCatalog | backend/src/catalog_metrics.rs:501-545 | two scans under way are never of the same catalog |
| MetricsCache.InFlightIsRunning | backend/src/catalog_metrics.rs:501-545 | in every reachable state the in-flight set is exactly the catalogs of the scans under way |
| MetricsCache.OneRoundAtATime | backend/src/catalog_metrics.rs:425-436 | however many rounds begin, one at a time gets past the lock |
| MetricsCache.RoundScansAreBounded | backend/src/catalog_metrics.rs:459-469 | the scans of rounds are all of the one that holds the lock, and at most two |
| MetricsCache.RoundScansTwoAtOnce | backend/src/catalog_metrics.rs:459-469 | a round scans two catalogs at once, and no third one until one of them is done |
| AccessChanges.PopExpired | backend/src/admin_catalogs.rs:378-383 | popping the front leaves exactly the slots from the first live one on |
| AccessChanges.RecentOfTail | backend/src/admin_catalogs.rs:374-389 | the queue's length is the number of grants less than an hour back, although it pops only in front |
| AccessChanges.TakeFrom | backend/src/admin_catalogs.rs:374-389 | one attempt is granted exactly when fewer than 30 of all grants ever made lie in the window |
| AccessChanges.Limiter.TakeSlot | backend/src/admin_catalogs.rs:374-389 | the same for one person among many; nobody else's grants change |
| AccessChanges.NoWindowHoldsMore | backend/src/admin_catalogs.rs:112-114 | no hour, wherever it starts, holds more than 30 lawful grants |
| AccessChanges.NoHourHoldsMoreThanTheLimit | backend/src/admin_catalogs.rs:374-389 | so no hour of any run holds more than 30 of a person's grants |
| AccessChanges.ParseU64Exactly | backend/src/admin_catalogs.rs:443-448 | a version counts on from a number exactly when it is that number's digits, with zeros in front or not, after a plus sign or none, and fits in 64 bits |
| AccessChanges.VersionsCountUp | backend/src/admin_catalogs.rs:443-448 | whatever the first version says, the later ones are decimal texts that count up by one |
| AccessChanges.VersionsNeverRepeat | backend/src/admin_catalogs.rs:443-448 | no two versions of a catalog are the same text |
| AccessChanges.OneChangePerVersion | backend/src/admin_catalogs.rs:404-420 | in any run of attempts one base version is accepted at most once |
| AccessChanges.DemoCatalog.Update | backend/src/admin_catalogs.rs:393-441 | a change lands only on the version it was made against, only a change that gets that far uses a slot, and the catalog's life stays a run of attempts |
| AccessChanges.AcceptedVersionsDiffer | backend/src/admin_catalogs.rs:404-420 | so no two changes that a catalog ever accepted were made against the same version |
| Connections.RefreshExactly | backend/src/connections.rs:142-157 | the texts accepted are exactly the numbers of at most four digits, leading zeros allowed, that make one minute to one day in their unit |
| Connections.NamesExactly | backend/src/connections.rs:116-139 | the accepted connection, field, setting and group names are the texts over their alphabets of at most 40, 63, 63 and 64 characters |
| Connections.SecretLikeExactly | backend/src/connections.rs:111-114 | a setting looks like a secret exactly when its name in lower case holds one of the six words |
| Connections.BytesCounted | backend/src/connections.rs:196-229 | section 3 of RFC 3629: the length limits count the bytes of the UTF-8 text |
| Connections.TypeRulesExactly | backend/src/connections.rs:241-273 | a connection has what its type needs exactly when it has all of one of the profiles of its type |
| Connections.CheckEntries | backend/src/connections.rs:196-229 | a map passes exactly when every entry does; otherwise the least offending key is named |
| Connections.ValidateNew | backend/src/connections.rs:160-239 | a connection is accepted exactly when it meets every rule; otherwise the first problem is named |
| Connections.OneProblem | backend/src/connections.rs:160-239 | the rules leave no choice of problem |
| Connections.StorePayload | backend/src/connections.rs:327-339 | the payload is the secret fields and a metadata map of the type, the field names and each setting, and nothing more |
| Connections.ViewUndoesStore | backend/src/connections.rs:467-507 | a listing shows exactly the type, the settings and the sorted field names that were stored |
| Connections.StoredKeys | backend/src/connection_routes.rs:745-755 | the keys a rotation may name are the fields of the connection |
| Connections.MergeRotation | backend/src/connections.rs:344-380 | when a rotation is accepted and what it then writes; otherwise the first reason to refuse it |
| Connections.OneRefusal | backend/src/connections.rs:344-380 | the rules leave no choice of refusal |
| Connections.SameSizeIsWhole | backend/src/connections.rs:364-372 | a patch of known fields that is as large as the connection is the whole of it |
| Connections.StoredSecret.Put | backend/src/secret_store.rs:289-311 | two requests, the second of which may fail alone: what the values and the metadata are for every way they end |
| Connections.RotatableExactly | backend/src/secret_store.rs:289-311 | for every way the two requests end: some rotation is accepted exactly when the first was answered and the second not rejected; otherwise a listing shows nothing |
| Connections.StoredSecret.Create | backend/src/connection_routes.rs:668-672 | creation succeeds exactly when both requests are answered; the values, and whether the connection can be rotated, for every way they end |
| Connections.StoredSecret.Rotate | backend/src/connection_routes.rs:718-768 | a rotation read from the store and written back overlays the values and keeps the metadata and every field |
| Connections.StepKeeps | backend/src/connection_routes.rs:757-768 | every step of overlapping rotations keeps the fields, their lengths and their origin |
| Connections.RotationsKeepTheRules | backend/src/connections.rs:344-380 | after any run of overlapping, failing or refused rotations the connection still meets every rule for a new one, has the fields it was created with, and every value came from a caller |
| Connections.RotationsAddUp | backend/src/connection_routes.rs:757-768 | in a managed connection, and in any other when no rotation is accepted while another is under way, the values are those of the creation overlaid, in order, by every patch that was written |
| Connections.RotationGoesThrough | backend/src/connection_routes.rs:757-768 | an accepted rotation lays its values over those at hand, a failed one changes no value, a refused one changes nothing |
| Connections.OverlappingRotationLosesValues | backend/src/connection_routes.rs:757-768 | two overlapping rotations of any fields: both are written, and of the first only what the second also sets, or what changed nothing, shows |
| PercentEncoding.PathSegment | backend/src/catalog.rs:1197-1211 | the byte loop refuses three names and encodes every other one |
| PercentEncoding.DecodeUndoesEncode | backend/src/catalog.rs:1197-1211 | section 2.1 of RFC 3986: decoding gives every name back |
| PercentEncoding.EncodedIsPlain | backend/src/catalog.rs:1202-1209 | section 2.3 of RFC 3986: nothing but unreserved characters and upper-case triples |
| PercentEncoding.UnchangedExactly | backend/src/catalog.rs:1202-1209 | a name is its own segment exactly when it is made of unreserved characters |
| PercentEncoding.SafeSegmentExactly | backend/src/catalog.rs:1197-1200 | section 5.2.4 of RFC 3986: a name is encoded as a dot segment or as nothing exactly when it is refused |
| PercentEncoding.SegmentsDiffer | backend/src/catalog.rs:1197-1211 | different names never share a segment |
| PercentEncoding.NamespacePathsDiffer | backend/src/catalog_metrics.rs:257-259 | namespaces of separator-free levels share a path only if their levels are the same |
| CatalogSearch.Search | backend/src/catalog_search.rs:164-212 | despite the early exit out of both loops: the first matches up to the limit of all there are in the first 100 namespaces, cut off exactly when there are more or more namespaces, and a failing list counts only when it is reached |
| Text.ContainsExactly | backend/src/catalog_search.rs:127-130 | a name holds a word exactly when it is some text, the word, and some text |
| Text.SpaceExactly | backend/src/demo.rs:527-528 | what trimming takes off are the 25 characters of the Unicode White_Space property |
| Sorting.LeExactly | backend/src/catalog_search.rs:112-124 | the order of sorted names is that of the dictionary: the first character that differs decides |
| CatalogSearch.AllMatchesExactly | backend/src/catalog_search.rs:127-130 | a table is found exactly when it is listed in a usable namespace and its name holds every word |
| CatalogSearch.AllMatchesInOrder | backend/src/catalog_search.rs:101-125 | all the matches of sorted namespaces come namespace by namespace and, inside one, table by table, exactly when no namespace with two different matches is listed twice |
| CatalogSearch.UncutAnswerIsComplete | backend/src/catalog_search.rs:164-212 | an answer that does not say it is cut holds every table asked for |
| CatalogSearch.UncutAnswerExactly | backend/src/catalog_search.rs:101-212 | an answer that is not cut holds exactly the tables listed in a single-level namespace that makes a path, whose name in lower case is, for every word, some text, the word, and some text |
| CatalogSearch.AnswerOnlyMatches | backend/src/catalog_search.rs:101-212 | any answer, cut or not, holds only such tables |
| CatalogSearch.CutAnswerExactly | backend/src/catalog_search.rs:164-212 | a cut answer is full, or there are more than 100 namespaces and it holds exactly what the first 100 hold |
| CatalogSearch.ListedCatalogIsAnswered | backend/src/catalog_search.rs:178-192 | a catalog whose usable namespaces all list their tables gets an answer, and one that does not say it is cut has read all of them |
| CatalogSearch.UncutAnswerInOrderExactly | backend/src/catalog_search.rs:164-212 | an answer that is not cut is in order exactly when no namespace with two different matches is listed twice |
| CatalogSearch.AnswerIsWantedAndInOrder | backend/src/catalog_search.rs:164-212 | an answer, cut or not, holds only tables asked for and no more than the limit, and is in order if no namespace with two different matches is listed twice |
| CatalogSearch.RepeatedNamespaceIsOutOfOrder | backend/src/catalog_search.rs:101-125 | a catalog that lists one namespace twice: its uncut answer is out of order, and the one cut after a match is in order all the same |

## Left out

- HTTP handlers, extractors and status codes: an upstream is an arbitrary answer or failure.
- Signatures, cookie signing, PKCE and random identifiers: a verified token is a fact, a fresh identifier is new.
- Cancelled requests, panics and poisoned locks: every task takes its steps to the end.
- Instants are natural numbers of nanoseconds; running out of `Instant` is not modelled.
- What a float text is worth: the parameter `printed` gives the text that the number nearest to a float text is written as, or none when it is not finite.
- JSON text: a parsed document is the input of `ParseJsonTable`, and its object keys come in the order the parser gives.
- `lower` (Unicode lower-casing), `arrive` (the order in which loads finish), `fates` (what the catalog answers), `fails` and `loses` (which statements fail, which answers are lost) are parameters, and any value is covered.
- Each statement is atomic; the lexer and the parser know what these statements use. The engine folds names by any rule that works piece by piece.
- `real_transfer`, `upload_in_catalog` and `transfer_in_catalogs`: the same staged load with another source, and the in-memory demo state.
- `validate_access`, `audit_change`, `authorize`, `sort_by_layer`, `PendingStore` and the one-minute limit of the metrics refresh: single rules without state worth a proof.
- In the demo the search lists tables without a path segment, so a namespace named `.` is read there; the model is the proxy's branch.
- Whether a column exists: a column write may end without a statement at any time.
- NextVersion: does not model the overflow of the largest `u64` version, where the source's addition has no result.
- Sessions.Step: a sign-in may draw any tokens, also a response without an ID token, which the source refuses; an identity is its subject.
- MetricsCache.Step: a listing names any catalogs, and a round may begin at any time.
- `log`, `failed`, `lost`, `gone`, `refreshedAt`, `taken`, `history`, `sent`, `written`, `disturbed`, `timely`, `attempts` and `accepted` record the past for the theorems; the source keeps none of them.
- Connections.StoredSecret.Create: does not model the cluster resource of a group or managed connection, nor the undoing of the store entry when that resource cannot be made; it is the two requests to the store.
- Documentation.Commit: counts the requests that take effect until it returns; those that land later are in `DocumentationProtocol`.
- DocumentationProtocol.Step: a column statement takes effect while its writer waits for it, or never.
