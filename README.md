# beadcrumbs in Dafny

beadcrumbs (`bdc`) is a command-line tool that records how understanding
evolves. It stores *insights* (typed moments of understanding), *threads*
(insights grouped into a narrative) and typed *dependencies* between
insights, threads and beads (tasks of the companion `bd` tool). It keeps
them in an SQLite cache and in JSON Lines files kept under version
control. This project models its core and proves properties of the model.

- The records and their constructors, with random identifiers drawn from
  an explicit random word.
- The store:
  - a `Storage.Store` class over the rows of its four tables;
  - the create, get, update, delete and list operations, with their
    duplicate, foreign-key and not-found errors and their orderings;
  - the dependency edges, keyed by (from, to, type);
  - the configuration upsert and the integrity check.
- The four schema migrations: statements over a schema state, run in
  order, stopping at the first failure.
- The JSON Lines export and import:
  - one encoded record per line;
  - blank lines skipped;
  - the first undecodable line aborts the import and reports its
    physical line number.
- The `bdc` commands over a session that caches the open store:
  - `trace`, `questions`, `timeline` and `list`;
  - `capture`, `link` and `thread`;
  - `show`, `spawn`, `import`, `setup` and `init`.
- The importers of AI-session transcripts and of Slack exports, and the
  parser of external references.

Representations:

- Strings are sequences of bytes (`seq<char>`, one character per byte,
  ASCII case rules).
- Times are whole seconds from Go's zero time. The clock, `crypto/rand`,
  the file system and the result of `git rev-parse` are parameters or
  small model classes.
- JSON encoding is a pair of functions with a round-trip law.
- Code that changes state in the source is imperative here:
  - the store, the session and the hook table are classes whose methods
    carry `modifies` clauses;
  - loops are `while` loops with invariants;
  - each method is proved equal to a specification function, and the
    lemmas state what that function promises.

Three facts about the code shape the model:

- `GenerateID` keeps four hex digits, those of the first two random bytes
  (internal/types/types.go:128-132).
- Foreign keys are switched on when the store is opened
  (internal/store/store.go:27), so an insight whose non-empty thread is
  not stored is refused.
- An empty thread or author identifier is stored as NULL and read back as
  the empty string (internal/store/store.go:64-78), so the two cannot be
  told apart.

## Model

| member | source | states |
|---|---|---|
| Types.ValidInsightTypes | internal/types/types.go:22-42 | lists exactly the six types `IsValid` accepts, each once |
| Types.GenerateID | internal/types/types.go:126-132 | the identifier is the prefix, a dash and four lower-case hex digits, so its length is the prefix's plus five |
| Types.GenerateIDBytes | internal/types/types.go:128-132 | the four hex digits read back as the first two random bytes |
| Types.GenerateIDInjective | internal/types/types.go:128-132 | two identifiers with one prefix are equal exactly when the first two random bytes agree, whatever the last two |
| Types.NewInsight | internal/types/types.go:134-146 | a human insight: an `ins-` identifier of 8 bytes, timestamp and creation time both now, confidence 1.0, every optional field empty |
| Types.NewInsightWithTimestamp | internal/types/types.go:170-186 | a non-zero timestamp is kept, the zero time becomes now, creation time is always now, and otherwise the insight is `NewInsight`'s |
| Types.NewThread | internal/types/types.go:148-158 | an active thread with a `thr-` identifier, created and updated now |
| Types.NewDependency | internal/types/types.go:160-168 | from, to and type are copied unchanged and the edge is stamped now |
| Storage.ToNull | internal/store/store.go:64-77 | an identifier is written as NULL exactly when it is empty |
| Storage.ToRow | internal/store/store.go:64-77 | the row read back gives the insight written, since NULL reads back as the empty identifier, and no row holds an empty non-NULL identifier |
| Storage.FilterRows | internal/store/store.go:284-303 | a row is listed exactly when it passes every filter that is set (thread, type, not before `since`) |
| Storage.ListInsightsMembers | internal/store/store.go:284-303 | an insight is listed exactly when it is stored and passes every filter that is set |
| Storage.ListInsightsNewestFirst | internal/store/store.go:303 | the list is ordered by timestamp, newest first |
| Storage.ListInsightsUnfiltered | internal/store/store.go:284-303 | with no filter every stored insight is listed, each once |
| Storage.StoredInsightListed | internal/store/store.go:111-176 | a stored identifier is found, and the insight read has that identifier and is among those listed |
| Storage.FilterAuthor | internal/store/store.go:665-672 | a row is kept exactly when its author column equals the given author |
| Storage.ListByAuthorMembers | internal/store/store.go:665-743 | an insight is listed exactly when it is stored with that non-empty author; an empty author matches nothing, because it was stored as NULL |
| Storage.ThreadsOf | internal/store/store.go:540-547 | a thread is listed exactly when it is stored and the status filter is unset or matches |
| Storage.ListThreadsMembers | internal/store/store.go:540-579 | `ListThreads` lists exactly the stored threads with the given status, or all of them |
| Storage.ListThreadsNewestFirst | internal/store/store.go:549 | threads are ordered by update time, newest first |
| Storage.DependenciesIn | internal/store/store.go:605-632 | exactly the stored edges leaving the node, oldest first |
| Storage.DependentsIn | internal/store/store.go:635-662 | exactly the stored edges entering the node, oldest first |
| Storage.VerifyResult | internal/store/store.go:775-800 | the check passes exactly when the integrity result is "ok" and all four tables exist; a bad integrity result is reported first |
| Storage.RequiredTablesPresent | internal/store/store.go:787-797 | the four tables checked are exactly the ones the store needs |
| Storage.FirstMissing | internal/store/store.go:787-797 | the first missing table is reported, and only a table that is checked and absent |
| Storage.MigratedStoreVerifies | internal/store/store.go:775-800 | after the migrations succeed, `Verify` with a sound file reports nothing |
| Storage.Store.Open | internal/store/store.go:38 | the store holds the database handle and the given rows, open |
| Storage.Store.Close | internal/store/store.go:42-44 | the store is closed and no row changes |
| Storage.Store.CreateInsight | internal/store/store.go:47-108 | a duplicate identifier, or a thread that does not exist, is refused and nothing changes; otherwise the row is added last and reads back as the insight |
| Storage.Store.GetInsight | internal/store/store.go:111-176 | returns the stored insight, or "insight not found" |
| Storage.Store.UpdateInsight | internal/store/store.go:179-260 | an unknown identifier is "not found" and an unknown thread is refused, and nothing changes; otherwise that row alone is replaced |
| Storage.Store.DeleteInsight | internal/store/store.go:263-279 | an unknown identifier is "not found" and nothing changes; otherwise that row alone goes, and the other tables are untouched |
| Storage.Store.ListInsights | internal/store/store.go:284-374 | returns the filtered, newest-first list of the stored rows |
| Storage.Store.ListInsightsByAuthor | internal/store/store.go:665-743 | returns the author's insights, newest first |
| Storage.ScanMatching | internal/store/store.go:284-374 | the scan keeps exactly the rows, in rowid order, that pass the `WHERE` filters |
| Storage.ScanByAuthor | internal/store/store.go:665-743 | the scan keeps exactly the rows, in rowid order, whose `author_id` is the given author |
| Storage.ScanThreads | internal/store/store.go:552-576 | the scan keeps exactly the threads, in insertion order, whose status matches the filter, or all of them when it is empty |
| Storage.Store.CreateThread | internal/store/store.go:458-476 | a duplicate identifier is refused and nothing changes; otherwise the thread is added and reads back |
| Storage.Store.GetThread | internal/store/store.go:479-503 | returns the stored thread, or "thread not found" |
| Storage.Store.UpdateThread | internal/store/store.go:506-536 | an unknown identifier is "not found" and nothing changes; otherwise only title, status, understanding and update time change, and the creation time is kept |
| Storage.Store.ListThreads | internal/store/store.go:540-579 | returns the status-filtered threads, most recently updated first |
| Storage.Store.AddDependency | internal/store/store.go:582-602 | an existing (from, to, type) triple is "dependency already exists" and nothing changes; otherwise the edge is appended and is then among both endpoints' edges |
| Storage.Store.GetDependencies | internal/store/store.go:605-632 | returns the outgoing edges, oldest first |
| Storage.Store.GetDependents | internal/store/store.go:635-662 | returns the incoming edges, oldest first |
| Storage.Store.GetConfig | internal/store/store.go:750-760 | returns the stored value, or "" with no error for a missing key |
| Storage.Store.SetConfig | internal/store/store.go:763-772 | inserts or overwrites the key, and nothing else changes |
| Storage.Store.Verify | internal/store/store.go:775-800 | reports the integrity failure, then the first missing table, else nothing |
| Storage.InsertInsightKeepsWellFormed | internal/store/store.go:47-108 | an accepted insert keeps the tables consistent (identifiers unique, rows in order, threads existing) and the row reads back as the insight |
| Storage.UpdateInsightKeepsWellFormed | internal/store/store.go:179-260 | rewriting a stored insight with an existing thread keeps the tables consistent and reads back as the new insight |
| Storage.DeleteInsightKeepsWellFormed | internal/store/store.go:263-279 | removing an insight keeps the tables consistent and it is no longer found |
| Storage.AddDependencyKeepsWellFormed | internal/store/store.go:582-602 | adding an edge keeps the tables consistent and the insights unchanged |
| Storage.Remove | internal/store/store.go:263-279 | deleting a row removes exactly that identifier from the row order |
| Storage.NewStore | internal/store/store.go:20-39 | the migrations run on the database; the store opens exactly when they succeed, the error is wrapped "failed to run migrations", and an open store has every table `Verify` needs |
| Migrations.Exec | internal/store/migrations.go:35-101 | a statement that succeeds only adds to the schema and leaves its object present; a failing statement is an error |
| Migrations.ExecAll | internal/store/migrations.go:33-110 | the statements run in order; the schema only grows, and after success every statement's object is present |
| Migrations.AddInsightsColumn | internal/store/migrations.go:113-161 | adding author_id or endorsed_by: when the column exists nothing happens, and after success the column is there |
| Migrations.Apply | internal/store/migrations.go:15-20 | each step only adds to the schema |
| Migrations.RunAll | internal/store/migrations.go:23-30 | running the list only adds to the schema |
| Migrations.RunAllUnfold | internal/store/migrations.go:24-27 | a successful step hands its schema to the rest of the list; a failing step makes the whole run fail |
| Migrations.RunAllSteps | internal/store/migrations.go:15-27 | a successful run is the four steps 001 to 004, in order, each successful |
| Migrations.StepFacts | internal/store/migrations.go:33-176 | what each step leaves when it succeeds: the three tables, the author_id column, the endorsed_by column, the config table |
| Migrations.MigratedSchemaHasTables | internal/store/migrations.go:35-176 | after a successful run the four tables and both added columns exist |
| Migrations.ExecAllNoOp | internal/store/migrations.go:35-101 | statements whose objects all exist change nothing, because each uses IF NOT EXISTS |
| Migrations.StepsAgain | internal/store/migrations.go:113-176 | on a migrated schema every step is a no-op |
| Migrations.MigratedHoldsAll | internal/store/migrations.go:23-175 | after a successful run every initial-schema statement holds, both added columns exist and the config table is there |
| Migrations.RerunChangesNothing | internal/store/migrations.go:23-175 | on a schema where all that holds, each migration finds its work done (`IF NOT EXISTS`, the column checks) and the run changes nothing |
| Migrations.RunMigrationsIdempotent | internal/store/migrations.go:23-30 | a second run after a successful one succeeds and leaves the schema unchanged |
| Migrations.Database.RunMigrations | internal/store/migrations.go:23-30 | the loop leaves the schema and error of running the list in order |
| Root.Session.GetStore | cmd/bdc/root.go:33-57 | a cached store is returned as it is, with no disk access; a missing database file is the error that suggests `bdc init`; otherwise the migrations run, and a store that opens is cached |
| Root.Session.CloseStore | cmd/bdc/root.go:60-65 | an open store is closed and forgotten, its rows kept; with no store nothing changes, so a second call is a no-op |
| Text.Truncate | cmd/bdc/root.go:68-73 | a string of at most `maxLen` bytes is kept; a longer one becomes its first `maxLen - 3` bytes and "...", exactly `maxLen` long (the same rule as `truncateStr` in list.go, `truncateForSpawn` in spawn.go and the importer's `truncate`) |
| Jsonl.DecodeLines | internal/jsonl/jsonl.go:132-149 | an error names a non-blank line that does not decode, numbered among all the physical lines; a success has at most one record per line |
| Jsonl.DecodeLinesExact | internal/jsonl/jsonl.go:132-149 | reading succeeds exactly when every non-blank line decodes, and then gives their decodings in order; a failure names the first non-blank line that does not decode |
| Jsonl.BlankLinesIgnored | internal/jsonl/jsonl.go:138-141 | blank lines in front change neither success nor the records |
| Jsonl.RoundTrip | internal/jsonl/jsonl_test.go:60-87 | reading back the lines written gives the same records, in order |
| Jsonl.EncodedPrefix | internal/jsonl/jsonl.go:91-109 | every record encodes exactly when the whole text is written, one record per line |
| Jsonl.EncodeAll | internal/jsonl/jsonl.go:93-97 | the encoding loop stops at the first record that does not encode |
| Jsonl.WriteJsonl | internal/jsonl/jsonl.go:78-119 | a file that cannot be created is an error; an unsupported type leaves an empty file and an error; otherwise the file holds the encoded lines, and an error reports a record that did not encode |
| Jsonl.ReadJsonl | internal/jsonl/jsonl.go:123-155 | a missing file is an error; otherwise the result is the decoding of its lines |
| Jsonl.ExportInsights | internal/jsonl/jsonl.go:14-17 | a writable file holds one line per insight, in order |
| Jsonl.ExportThreads | internal/jsonl/jsonl.go:19-22 | a writable file holds one line per thread, in order |
| Jsonl.ExportDependencies | internal/jsonl/jsonl.go:24-27 | a writable file holds one line per dependency, in order |
| Jsonl.ImportInsights | internal/jsonl/jsonl.go:29-43 | the decoded records, or the error wrapped "failed to import insights" |
| Jsonl.ImportThreads | internal/jsonl/jsonl.go:45-59 | the decoded records, or the error wrapped "failed to import threads" |
| Jsonl.ImportDependencies | internal/jsonl/jsonl.go:61-75 | the decoded records, or the error wrapped "failed to import dependencies" |
| Jsonl.ExportImportInsights | internal/jsonl/jsonl_test.go:60-87 | importing the exported insights gives them back, in order |
| Trace.FirstLink | cmd/bdc/trace.go:143-148 | the first builds-on or supersedes edge in the order given, or none when there is no such edge |
| Trace.Step | cmd/bdc/trace.go:141-149 | the step's relation is empty or a link kind, and a predecessor is only found through a link |
| Trace.WalkStep | cmd/bdc/trace.go:132-152 | one turn of the loop: the node is visited, prepended with its relation, and the walk goes on from its predecessor over fewer unvisited nodes |
| Trace.TraceChain | cmd/bdc/trace.go:125-156 | the loop computes the walk; it stops on every edge set, cycles included, and a failing first lookup gives an empty chain |
| Trace.WalkDistinct | cmd/bdc/trace.go:132-133 | a walk that starts from visited, distinct nodes adds no node twice |
| Trace.FindLink | cmd/bdc/trace.go:141-149 | the inner loop finds the first builds-on or supersedes edge, giving the node it comes from and its kind, or ("", "") when no edge qualifies |
| Trace.TraceChainDistinct | cmd/bdc/trace.go:132-151 | no insight appears twice in the chain |
| Trace.WalkExtends | cmd/bdc/trace.go:151 | the walk only prepends: what was gathered stays at the end |
| Trace.TraceEndsAtStart | cmd/bdc/trace.go:136-152 | when the first lookup succeeds, the chain ends with the start |
| Trace.WalkLinked | cmd/bdc/trace.go:142-152 | every later element was reached through a link edge from the element before it |
| Trace.TraceChainLinked | cmd/bdc/trace.go:142-152 | for each element after the first, its relation is builds-on or supersedes and an edge of that type runs from the element before it to it |
| Trace.SpawnsFrom | cmd/bdc/trace.go:71-75 | an insight's identifier is collected exactly when one of its edges spawns the bead |
| Trace.SpawningMembers | cmd/bdc/trace.go:65-76 | an identifier is found exactly when it is listed, its lookup succeeds and it has a spawns edge to the bead; failed lookups are skipped |
| Trace.FindSpawning | cmd/bdc/trace.go:65-76 | the nested loops compute the spawning identifiers in list order |
| Trace.TruncateForTrace | cmd/bdc/trace.go:158-164 | newlines become spaces; a short text is kept, a long one is cut to `maxLen` bytes ending in "..."; no newline remains |
| Trace.ById | cmd/bdc/trace.go:58-62 | the map has exactly the listed identifiers, each mapped to a listed insight with that identifier |
| Trace.BuildInsightMap | cmd/bdc/trace.go:58-62 | the loop builds that map |
| Trace.ChainLinesUpTo | cmd/bdc/trace.go:93-112 | one printed line per chain element found in the map, in order |
| Trace.ChainLinesTrailers | cmd/bdc/trace.go:107-111 | each line but the last is followed by the next element's relation, and the last by "spawns" and the bead |
| Trace.DependentsClosed | cmd/bdc/trace.go:125-156 | the nodes the walk can reach form a finite set closed under the lookups |
| Trace.ListedAll | cmd/bdc/trace.go:53 | the unfiltered list holds every stored insight |
| Trace.SpawnEdgeStored | cmd/bdc/trace.go:67-75 | a spawns edge among an insight's dependencies is a stored edge from it to the bead |
| Trace.TraceStartsAtSpawners | cmd/bdc/trace.go:53-76 | the chains start exactly at the stored insights with a stored spawns edge to the bead |
| Trace.TraceAll | cmd/bdc/trace.go:89-114 | one chain of lines per spawning insight, in order |
| Trace.RunTrace | cmd/bdc/trace.go:37-117 | an identifier that is not a bead's is refused before the store is touched; otherwise the store error, or the traces of the stored graph; the store is closed afterwards |
| Questions.UnresolvedErrorStays | cmd/bdc/questions.go:112-115 | once a lookup has failed, the later insights do not change the result |
| Questions.FilterUnresolved | cmd/bdc/questions.go:105-132 | the loop computes the unresolved questions, or the first lookup error |
| Questions.UnresolvedErrors | cmd/bdc/questions.go:112-115 | the filter fails exactly when some lookup fails, and then with the first failing lookup's error |
| Questions.UnresolvedMembers | cmd/bdc/questions.go:117-127 | an insight is kept exactly when it was given and none of its dependents supersedes it; builds-on and contradicts edges do not remove it |
| Questions.UnresolvedNewestFirst | cmd/bdc/questions.go:110-128 | the filter keeps the order of its input |
| Questions.StoreUnresolvedOk | cmd/bdc/questions.go:112-115 | over the store's own lookups the filter never fails |
| Questions.QuestionsShown | cmd/bdc/questions.go:52-63 | a question is shown exactly when it is stored, of type question, in the thread if one is given, and, with `--unresolved`, has no superseding edge |
| Questions.ShownNewestFirst | cmd/bdc/questions.go:51-63 | the questions shown (all, or the unresolved ones) keep the store's newest-first order |
| Questions.QuestionsOldestFirst | cmd/bdc/questions.go:93-94 | the questions are shown oldest first, by reversing the store's order |
| Questions.RunQuestions | cmd/bdc/questions.go:39-102 | the store error, or the questions view of the stored graph; the store is closed afterwards |
| Questions.ShowQuestions | cmd/bdc/questions.go:51-99 | on an open store, the view is the questions view of the stored graph: the filtered questions oldest first under their heading, or the empty-result message |
| Timeline.Reversed | cmd/bdc/timeline.go:130-134 | element k of the result is element n-1-k of the input |
| Timeline.ReversedTwice | cmd/bdc/timeline.go:130-134 | reversing twice gives the input back |
| Timeline.ReversedPermutes | cmd/bdc/timeline.go:130-134 | the reversal is a permutation |
| Timeline.ReverseInsights | cmd/bdc/timeline.go:130-134 | the two-index swap loop leaves the array reversed |
| Timeline.ReverseSlice | cmd/bdc/timeline.go:130-134 | the same swap loop over a copy of a slice |
| Timeline.SymbolIdentifiesType | cmd/bdc/timeline.go:115-128 | two types share a symbol exactly when they are equal or both outside question, feedback, pivot and decision |
| Timeline.TypeLabel | cmd/bdc/timeline.go:98-101 | pivot and decision are upper-cased, every other type is shown as it is |
| Timeline.TypeLabelShown | cmd/bdc/timeline.go:98-101 | PIVOT and DECISION; the four other valid types unchanged |
| Timeline.DisplayText | cmd/bdc/timeline.go:88-95 | the summary when it is set; else the content, cut to 57 bytes and "..." when over 60, so at most 60 bytes |
| Timeline.LineOf | cmd/bdc/timeline.go:79-113 | a line shows the timestamp, the display text and the label; a failed dependency lookup shows no dependencies |
| Timeline.LinesOf | cmd/bdc/timeline.go:72-74 | one line per insight |
| Timeline.LineAt | cmd/bdc/timeline.go:72-74 | the lines keep the insights' order, each with the insight's stored dependencies |
| Timeline.LinesStep | cmd/bdc/timeline.go:72-74 | one more insight appends exactly its own line, with its stored dependencies |
| Timeline.PrintLines | cmd/bdc/timeline.go:72-74 | the printing loop yields those lines |
| Timeline.TimelineOldestFirst | cmd/bdc/timeline.go:67-69 | the timeline is ordered oldest first |
| Timeline.ReversedLinesAscend | cmd/bdc/timeline.go:67-74 | reversing a newest-first list gives lines oldest first |
| Timeline.TimelineShowsThread | cmd/bdc/timeline.go:43-56 | one line per listed insight, and an insight is listed exactly when it is stored and in the thread if one is given |
| Timeline.RunTimeline | cmd/bdc/timeline.go:31-77 | the store error, or the timeline of the stored insights; the store is closed afterwards |
| List.SkipScanSpace | cmd/bdc/list.go:135-139 | the scanned text starts with no blank and is no longer than the input |
| List.SkipScanSpaceSuffix | cmd/bdc/list.go:135-139 | the scanned text is a suffix of the input |
| List.LeadingDigits | cmd/bdc/list.go:135-139 | the longest run of digits the scan reads, a prefix of the input |
| List.ParseSince | cmd/bdc/list.go:121-154 | an empty flag means no bound; one character is a format error; an unreadable number a number error; an accepted value ends in one of the units h, d, w, m |
| List.LeadingDigitsOf | cmd/bdc/list.go:135-139 | the digits read are exactly the decimal digits before the first non-digit |
| List.ScanDecimal | cmd/bdc/list.go:135-139 | the decimal form of a number followed by a non-digit scans back to that number |
| List.ParseSinceCountsBack | cmd/bdc/list.go:142-153 | `<n>h`, `<n>d` and `<n>w` move `now` by the int64 nanosecond duration `-n` units, wrapped to 64 bits; `<n>m` goes back n months |
| List.WrapInt64 | cmd/bdc/list.go:143-147 | the result is in the signed 64-bit range, congruent to the input modulo 2^64, and equal to it when it already fits |
| List.SinceOffsetExact | cmd/bdc/list.go:143-147 | up to 2562047 hours, 106751 days or 15250 weeks the duration does not wrap and the offset is exactly n units back |
| List.ParseSinceInRange | cmd/bdc/list.go:142-147 | within those counts `<n>h`, `<n>d` and `<n>w` go back exactly n hours, days or weeks from now |
| List.ParseSinceWraps | cmd/bdc/list.go:143-144 | `2562048h` wraps: the bound lies 9223371273 seconds (about 292 years) after now |
| List.ParseSinceBadUnit | cmd/bdc/list.go:151-152 | any other unit letter is rejected, naming the letter |
| List.FilterByFlagsMembers | cmd/bdc/list.go:64-80 | an insight survives the author-branch filters exactly when it is in the input and passes the thread, type and since filters |
| List.ApplyFilters | cmd/bdc/list.go:66-79 | the filtering loop keeps those insights, in order |
| List.AuthorBranchAgrees | cmd/bdc/list.go:64-86 | listing by author and then filtering gives exactly the insights the plain listing gives that have that author |
| List.JoinStrings | cmd/bdc/list.go:165-174 | the loop joins the parts with the separator between them |
| List.MetaParts | cmd/bdc/list.go:99-106 | at most a thread part and an author part |
| List.ListLineShows | cmd/bdc/list.go:94-115 | each line shows the content cut to 60 bytes and the thread and author suffix in each of the four cases |
| List.MetaShown | cmd/bdc/list.go:98-110 | the metadata suffix is empty, the thread alone, the author alone, or both joined by ", ", exactly as thread and author are set |
| List.ListLinesOf | cmd/bdc/list.go:94-115 | one line per insight, in order |
| List.PrintLine | cmd/bdc/list.go:95-112 | the metadata parts are built as the line's thread and author suffix |
| List.PrintList | cmd/bdc/list.go:94-115 | the printing loop yields those lines |
| List.RunList | cmd/bdc/list.go:29-117 | the store error, or the list the flags select (type, since and author errors included); the store is closed afterwards |
| Capture.ShorthandCount | cmd/bdc/capture.go:114-142 | at most six shorthand flags are counted |
| Capture.LastShorthand | cmd/bdc/capture.go:114-142 | the last shorthand set is missing exactly when none is set, and is always a valid type |
| Capture.DetermineInsightType | cmd/bdc/capture.go:113-167 | the method computes the type choice: type and shorthand together, an invalid type, several shorthands are errors; one shorthand wins; the default is a discovery |
| Capture.ChosenTypeValid | cmd/bdc/capture.go:113-167 | every type the choice accepts is one of the six valid types |
| Capture.ShorthandSelects | cmd/bdc/capture.go:156-163 | one shorthand flag selects its own type; a second one makes the choice fail |
| Capture.ResolveThreadRef | cmd/bdc/capture.go:235-245 | a thread reference is used as given |
| Capture.CapturedFields | cmd/bdc/capture.go:51-93 | the captured insight has a fresh `ins-` identifier, the given content, type, thread, endorsements and author, a human source and confidence, and the given timestamp or now |
| Capture.SaveCaptured | cmd/bdc/capture.go:89-97 | the store error, or the insight saved with its author; a failed insert is wrapped and changes nothing |
| Capture.RunCapture | cmd/bdc/capture.go:42-110 | flag and timestamp errors come before the store is opened; otherwise the captured insight is stored and the store closed |
| Link.LinkCount | cmd/bdc/link.go:25-49 | at most four relation flags are counted |
| Link.ChooseLink | cmd/bdc/link.go:25-57 | the method computes the chosen target and relation |
| Link.LinkTargetChosen | cmd/bdc/link.go:25-57 | a link is chosen exactly when one flag is set, and it is that flag's target with that flag's relation |
| Link.LinkedBothWays | cmd/bdc/link.go:60-71 | a stored link appears among the dependencies of its source and the dependents of its target; adding fails exactly when the same edge is stored |
| Link.SaveLink | cmd/bdc/link.go:62-71 | the store error, or the edge added; a failed insert is wrapped and changes nothing |
| Link.RunLink | cmd/bdc/link.go:22-75 | flag errors come before the store is opened; otherwise the new edge is added and the store closed |
| Threads.StatusFlag | cmd/bdc/thread.go:108-113 | an explicit status is used; without one, `list` shows every thread and `close` concludes |
| Threads.ListDefaultHidesActive | cmd/bdc/thread.go:183-184 | with the shared default, `thread list` without a flag hides an active thread that the intended default shows |
| Threads.DefaultStatusAllThreads | cmd/bdc/thread.go:108-113 | without a flag `list` shows exactly the stored threads, and `close` concludes |
| Threads.RunThreadNew | cmd/bdc/thread.go:22-46 | the store error, or a new thread stored; a failed insert is wrapped and changes nothing |
| Threads.NewThreadStored | cmd/bdc/thread.go:30-41 | a new thread is active, has the given title, can be read back, and leaves the other threads as they were; the insert fails exactly when its identifier is taken |
| Threads.ThreadInsightLines | cmd/bdc/thread.go:86-91 | one line per insight, in order |
| Threads.PrintThreadInsights | cmd/bdc/thread.go:86-91 | the printing loop yields those lines |
| Threads.ThreadShowFound | cmd/bdc/thread.go:62-68 | showing fails exactly when the thread is not stored, and otherwise shows the stored thread |
| Threads.ThreadShowLists | cmd/bdc/thread.go:81-91 | every stored insight of the thread has a line |
| Threads.ThreadShowLinesStored | cmd/bdc/thread.go:81-91 | every line comes from a stored insight of the thread |
| Threads.RunThreadShow | cmd/bdc/thread.go:48-95 | the store error, or the thread and its insight lines; the store is closed afterwards |
| Threads.ShowThread | cmd/bdc/thread.go:62-91 | reading the thread and its insights from an open store gives that view |
| Threads.RunThreadList | cmd/bdc/thread.go:97-131 | the store error, or the threads with the given status (all of them without a flag); the store is closed afterwards |
| Threads.CloseStatus | cmd/bdc/thread.go:156-162 | only concluded and abandoned (or no value, meaning concluded) are accepted |
| Threads.ClosedThread | cmd/bdc/thread.go:133-174 | closing succeeds exactly when the thread is stored and the status is accepted, and then changes only that thread's status and update time |
| Threads.RunThreadClose | cmd/bdc/thread.go:133-174 | the store error, or the thread closed with the flag's status (concluded by default); the store is closed afterwards |
| Show.ShowInsight | cmd/bdc/show.go:37-79 | reading an insight with its edges from an open store gives that view |
| Show.InsightShowEdges | cmd/bdc/show.go:37-79 | showing fails exactly when the insight is not stored; otherwise it lists exactly the stored edges from it and to it |
| Show.ShowDispatch | cmd/bdc/show.go:27-33 | `ins-` identifiers show an insight, `thr-` identifiers a thread, anything else is an invalid identifier |
| Show.RunShow | cmd/bdc/show.go:18-34 | the store error, or the view the identifier selects; the store is closed afterwards |
| Spawn.PlaceholderAsWrittenCollides | cmd/bdc/spawn.go:83 | as written, the placeholder keeps one hex digit, so two different identifiers give the same bead |
| Spawn.PlaceholderBeadId | cmd/bdc/spawn.go:83 | the placeholder is `bead-` and four hex digits, a bead identifier |
| Spawn.PlaceholderDistinct | cmd/bdc/spawn.go:83 | placeholders differ exactly when the random bytes they use differ |
| Spawn.SpawnThenTrace | cmd/bdc/spawn.go:83-88 | a placeholder spawn records one `spawns` edge, keeps the store well formed, and the insight then traces as a spawner of the bead |
| Spawn.SpawnWritesOnlyPlaceholder | cmd/bdc/spawn.go:52-73 | with beads present nothing is written, and the command fails exactly when the insight is missing; a failed spawn changes nothing |
| Spawn.SpawnStored | cmd/bdc/spawn.go:45-96 | the store error, or the spawn result and tables; the store is closed afterwards |
| Spawn.RunSpawn | cmd/bdc/spawn.go:37-96 | an invalid identifier fails before the store is opened; otherwise the spawn is carried out and the store closed |
| AiSession.DetectInsightType | internal/import/ai_session.go:154-185 | the detected type is one of the valid types, never feedback |
| AiSession.DetectPrecedence | internal/import/ai_session.go:154-185 | a trailing question mark makes a question; otherwise decision, pivot and discovery phrases are tried in that order; the rest are hypotheses, each case exactly |
| AiSession.QuestionWins | internal/import/ai_session.go:17 | text ending in a question mark and blanks is a question, whatever else it says |
| AiSession.BaseOrNow | internal/import/ai_session.go:34-39 | a given base timestamp is used, the zero time means now |
| AiSession.SubstantiveLinesAppend | internal/import/ai_session.go:43-52 | choosing lines distributes over concatenation |
| AiSession.SubstantiveLine | internal/import/ai_session.go:44-52 | a line is kept, trimmed, exactly when it has at least 10 bytes after trimming |
| AiSession.PlainInsights | internal/import/ai_session.go:43-72 | one insight per kept line |
| AiSession.ParseAISessionWithTimestamp | internal/import/ai_session.go:31-75 | the transcript gives the insights of its kept lines, in order |
| AiSession.ExtractLines | internal/import/ai_session.go:43-72 | the loop yields one insight per kept line, in order |
| AiSession.PlainInsightFields | internal/import/ai_session.go:55-69 | each insight carries its trimmed line of at least 10 bytes, the summary cut to 80, the detected type, the session confidence and source, the base timestamp or now, and a fresh `ins-` identifier |
| AiSession.TrimmedIsFixed | internal/import/ai_session.go:44 | text that neither starts nor ends with white space is exactly the text `strings.TrimSpace` returns unchanged |
| AiSession.SubstantiveTrimmed | internal/import/ai_session.go:44-52 | every kept line is trimmed and at least 10 bytes long |
| AiSession.TurnStart | internal/import/ai_session.go:98 | after the colon the blanks are skipped, leaving a non-empty rest |
| AiSession.SpeakerMatch | internal/import/ai_session.go:97 | a matched line names one of the six speakers and has a non-empty turn start |
| AiSession.RunFromAppend | internal/import/ai_session.go:137-147 | reading lines in two pieces is reading them at once |
| AiSession.Participant | internal/import/ai_session.go:110-115 | human and user (in any case) are the human; every other speaker is the AI agent |
| AiSession.TurnInsights | internal/import/ai_session.go:104-135 | one insight per turn |
| AiSession.FlushTurn | internal/import/ai_session.go:104-135 | flushing a turn adds its insight when its trimmed text is long enough, and empties the turn |
| AiSession.ParseConversationWithTimestamp | internal/import/ai_session.go:87-151 | the conversation gives the insights of its turns, in order |
| AiSession.ConversationPreambleIgnored | internal/import/ai_session.go:137-147 | lines before the first speaker contribute nothing |
| AiSession.ContinuationsExtend | internal/import/ai_session.go:142-146 | each continuation line is added to the open turn trimmed and after a space |
| AiSession.TurnCollects | internal/import/ai_session.go:137-147 | a speaker line flushes the previous turn and opens a new one that collects its continuation lines |
| AiSession.TurnsWellFormed | internal/import/ai_session.go:104-135 | every turn collected has a speaker and trimmed text of at least 10 bytes |
| AiSession.ConversationInsightFields | internal/import/ai_session.go:104-131 | each insight carries its turn's text, the speaker's participant, the summary cut to 80, the detected type, the session confidence, the base timestamp or now |
| Slack.SubstantiveNoise | internal/import/slack.go:135-167 | a trimmed message of 10 or more bytes is noise exactly when it is "sounds good" in any case or is wrapped in colons |
| Slack.LongNoiseWord | internal/import/slack.go:138-153 | the only noise phrase of 10 or more bytes is "sounds good" |
| Slack.ReactionIsNoise | internal/import/slack.go:161-164 | a reaction `:name:` is noise |
| Slack.SlackFractionIgnored | internal/import/slack.go:120-132 | the fraction after the dot does not change the timestamp |
| Slack.SlackSecondsRead | internal/import/slack.go:126-131 | the seconds before the dot are read as Unix seconds |
| Slack.KeptMessagesAppend | internal/import/slack.go:75-90 | choosing messages distributes over concatenation |
| Slack.KeptMessageMembers | internal/import/slack.go:75-90 | a message is kept exactly when it is a message, long enough after trimming and not noise |
| Slack.SlackInsights | internal/import/slack.go:92-113 | one insight per kept message |
| Slack.MessagesToInsights | internal/import/slack.go:72-117 | the loop yields the insights of the kept messages, in order |
| Slack.SlackInsightFields | internal/import/slack.go:92-111 | each insight carries the trimmed text, the message timestamp, the Slack confidence, a source naming the timestamp and user, the summary cut to 80 and the detected type |
| Slack.ParseSlackJSON | internal/import/slack.go:54-61 | undecodable JSON is an error wrapped as a Slack parse failure; anything decoded is converted |
| Slack.ParseSlackExport | internal/import/slack.go:27-51 | the loop collects the insights of every readable file and sorts them |
| Slack.ExportOrdered | internal/import/slack.go:45-48 | the export is ordered by timestamp and is a permutation of the files' insights |
| Slack.ReadableFileIncluded | internal/import/slack.go:36-43 | every insight of a readable file is in the export |
| Slack.ExportFromReadableFile | internal/import/slack.go:36-43 | every insight in the export comes from a readable file; unreadable files are skipped |
| Beads.IdKinds | internal/beads/integration.go:81-94 | bead, insight and thread identifiers exclude each other, and generated insight and thread identifiers are recognised as such and not as beads |
| Beads.RepoNumber | internal/beads/integration.go:24 | a GitHub reference splits at its last `#` into a repository without `#` and a non-empty number |
| Beads.SplitColon | internal/beads/integration.go:150 | the split happens at the first colon, and fails exactly when there is none |
| Beads.KnownMatch | internal/beads/integration.go:116-147 | a reference matched by a known pattern keeps its raw text |
| Beads.GenericMatch | internal/beads/integration.go:149-157 | the fallback accepts exactly a non-empty system and a non-empty rest around the first colon |
| Beads.ParseTrimmed | internal/beads/integration.go:116-159 | a parsed reference keeps its raw text; a failure names the reference |
| Beads.ParseExternalRef | internal/beads/integration.go:113-160 | the reference is trimmed first; a parsed one keeps the trimmed text, a failure names it |
| Beads.KnownPrefixes | internal/beads/integration.go:117-147 | the known patterns' prefixes exclude each other, so at most one of them applies |
| Beads.KnownIsGeneric | internal/beads/integration.go:116-157 | every reference a known pattern accepts the fallback accepts too, with the same identifier, and only GitHub's short form changes the system name |
| Beads.GithubIsGeneric | internal/beads/integration.go:125-131 | a GitHub reference the `github:`/`gh:` pattern accepts is also a generic match, its identifier being the repository, `#` and the number |
| Beads.KnownKeyRef | internal/beads/integration.go:116-139 | `linear:KEY-N` and `jira:KEY-N` match their own key pattern, with `KEY-N` as the identifier |
| Beads.ParseTrimmedShape | internal/beads/integration.go:116-159 | parsing succeeds exactly when the text has a non-empty system and rest around its first colon; the identifier is the rest and the system is that prefix, or github for a GitHub match |
| Beads.ParseExternalRefShape | internal/beads/integration.go:113-160 | the same, after trimming |
| Beads.ParseUntrimmed | internal/beads/integration.go:114 | trimming leaves a reference without surrounding blanks as it is |
| Beads.KnownKeyNumber | internal/beads/integration.go:20-27 | `linear:` and `jira:` followed by an upper-case key, a dash and digits are that system with that key |
| Beads.ParseKeyNumberRef | internal/beads/integration.go:117-139 | `linear:KEY-12` and `jira:KEY-12` parse to their system with `KEY-12` as the identifier |
| Beads.ParseGithubRef | internal/beads/integration.go:125-131 | `github:` or `gh:`, a repository and `#` and digits parse to github with `repo#number` |
| Beads.RepoNumberOf | internal/beads/integration.go:24 | a repository and a number joined by `#` split back into the two |
| Beads.KnownGithub | internal/beads/integration.go:125-131 | a GitHub match gives the github system with the part after the prefix |
| Beads.IsExternalRefIsParse | internal/beads/integration.go:98-104 | a reference is external exactly when it parses |
| Beads.LabelNoColon | internal/beads/integration.go:173-184 | the displayed system name has no colon when the system has none |
| Beads.FormatExternalRef | internal/beads/integration.go:172-185 | the display ends in `: ` and the identifier, and starts with the system for an unknown one |
| Beads.FormatSplits | internal/beads/integration.go:172-185 | the display splits at its first colon into the system's label and the identifier |
| Beads.FormatParsedRef | internal/beads/integration.go:113-185 | every parsed reference displays as its label, a colon, a space and its identifier |
| Beads.ResolveRefType | internal/beads/integration.go:189-200 | thread identifiers first, then bead identifiers, then parseable external references; everything else is unknown, each case exactly |
| ImportCmd.Ext | cmd/bdc/import.go:216 | the extension is empty or a final `.`-started suffix of the path with no other dot and no slash |
| ImportCmd.ExtOfName | cmd/bdc/import.go:216 | the extension of `stem.ext` is `.ext` |
| ImportCmd.DetectFormat | cmd/bdc/import.go:204-237 | the format is slack, ai-session or unknown, and unknown for every missing path |
| ImportCmd.ExtensionDecides | cmd/bdc/import.go:216-221 | `.json` (in any case) means slack; `.txt`, `.md` and `.log` mean an AI session |
| ImportCmd.JsonLookingIsSlack | cmd/bdc/import.go:222-233 | another extension whose content starts with `[` or `{` after blanks is taken for slack |
| ImportCmd.FlagsOverrideDetection | cmd/bdc/import.go:69-75 | `--ai-session` wins over `--slack`, which wins over detection |
| ImportCmd.PlainWithoutSpeakers | cmd/bdc/import.go:88-93 | a transcript with no speaker lines falls back to the plain line reader |
| ImportCmd.Restamped | cmd/bdc/import.go:114-118 | every insight gets the given timestamp and is otherwise unchanged |
| ImportCmd.Rethreaded | cmd/bdc/import.go:136-140 | every insight gets the given thread and is otherwise unchanged |
| ImportCmd.StampAll | cmd/bdc/import.go:114-118 | the loop restamps every insight |
| ImportCmd.ThreadAll | cmd/bdc/import.go:136-140 | the loop sets every insight's thread |
| ImportCmd.ParseInput | cmd/bdc/import.go:77-126 | the parse for the chosen format: read and parse errors and an unknown format are errors; a directory is a Slack export; a given timestamp overrides Slack's |
| ImportCmd.PlanImport | cmd/bdc/import.go:56-140 | the timestamp check, format choice, parse and thread assignment, in that order |
| ImportCmd.PlanAssignsThread | cmd/bdc/import.go:112-140 | with `--thread` every insight is in that thread; with a timestamp every Slack insight carries it |
| ImportCmd.TruncateContent | cmd/bdc/import.go:239-248 | the preview text has no line breaks and at most the given length, and a short single-line text is kept as it is |
| ImportCmd.NoChangeWithout | cmd/bdc/import.go:240-242 | replacing and removing line breaks changes nothing in a text without them |
| ImportCmd.Preview | cmd/bdc/import.go:143-158 | one preview line per insight |
| ImportCmd.PreviewShape | cmd/bdc/import.go:145-157 | each preview line is numbered from 1, shows the symbol, the type label, a line-break-free text of at most 60 bytes, and a date exactly when a timestamp was given |
| ImportCmd.SaveAllCounts | cmd/bdc/import.go:185-195 | saving counts at most the insights given, appends exactly the saved ones, keeps every stored insight and every thread |
| ImportCmd.SaveAllFresh | cmd/bdc/import.go:185-195 | fresh, distinct insights whose threads exist are all saved and can be read back |
| ImportCmd.BatchOnlyAdds | cmd/bdc/import.go:185-195 | saving a batch stores no insight outside it |
| ImportCmd.SaveAll | cmd/bdc/import.go:185-195 | the saving loop skips failed inserts and counts the rest |
| ImportCmd.SaveOne | cmd/bdc/import.go:188-194 | one insight offered to the store: added and counted when the insert succeeds, otherwise nothing changes |
| ImportCmd.SaveImported | cmd/bdc/import.go:170-195 | the store error; a missing thread is an error that saves nothing; otherwise the batch is saved; the store is closed afterwards |
| ImportCmd.ImportPlanned | cmd/bdc/import.go:128-201 | once planned: a failed plan, no insights or a dry run touch nothing; otherwise the store error, the missing thread, or the saved batch and its count |
| ImportCmd.RunImport | cmd/bdc/import.go:56-201 | parse errors, an empty parse and a dry run leave the store untouched; otherwise the batch is saved into an existing thread or not at all |
| Setup.GroupRunsScan | cmd/bdc/setup.go:223-241 | the scan of one hook group finds a command exactly when the group runs one of the commands sought |
| Setup.AnyGroupRunsScan | cmd/bdc/setup.go:222-242 | the scan of an event's groups finds a command exactly when some group runs it |
| Setup.HookTable.CleanNulls | cmd/bdc/setup.go:99-104 | every null entry is removed and nothing else changes |
| Setup.HookTable.AddHookCommand | cmd/bdc/setup.go:216-258 | a group running the command is appended exactly when none was there, and the method reports whether it added one |
| Setup.HookTable.RemoveHookCommand | cmd/bdc/setup.go:261-305 | the groups running the command are dropped, and the event is deleted when none remain |
| Setup.AddIdempotent | cmd/bdc/setup.go:216-258 | after adding, the event runs the command, and adding again changes nothing |
| Setup.AddKeepsOtherEvents | cmd/bdc/setup.go:255-256 | adding changes no other event |
| Setup.RemoveKeepsOtherEvents | cmd/bdc/setup.go:299-304 | removing changes no other event |
| Setup.RemoveKeepsTheRest | cmd/bdc/setup.go:267-297 | after removing, a group is left exactly when it was there and does not run the command |
| Setup.RemoveClears | cmd/bdc/setup.go:261-305 | after removing, no group of the event runs the command |
| Setup.RemoveKeepsClear | cmd/bdc/setup.go:196-199 | a removal keeps clear an event that was already clear of a command |
| Setup.RemoveIdempotent | cmd/bdc/setup.go:261-305 | removing twice is removing once |
| Setup.RemoveUndoesAdd | cmd/bdc/setup.go:216-305 | removing a command just added leaves what removing it alone would |
| Setup.HasBeadcrumbsHooks | cmd/bdc/setup.go:308-353 | a settings file has the integration exactly when its SessionStart or PreCompact hooks run `bdc prime` or `bdc prime --stealth` |
| Setup.RunsOneOfTwo | cmd/bdc/setup.go:345 | running one of two commands is running the first or the second |
| Setup.RunsWider | cmd/bdc/setup.go:345 | running one of a set of commands is running one of any larger set |
| Setup.InstallClaudeHooks | cmd/bdc/setup.go:84-126 | the installation computes the new settings, or the parse error of an unreadable settings file |
| Setup.InstalledHooksRun | cmd/bdc/setup.go:106-116 | after installing, SessionStart and PreCompact both run the prime command, with `--stealth` in stealth mode |
| Setup.InstallInstalls | cmd/bdc/setup.go:84-126 | the settings written have the integration, no null hook entry, and both events running the prime command |
| Setup.InstallIdempotent | cmd/bdc/setup.go:84-126 | installing twice writes what installing once writes |
| Setup.RemoveClaudeHooks | cmd/bdc/setup.go:179-207 | the removal computes the new settings, nothing for a missing file or missing hooks, or the parse error |
| Setup.RemovedEventClear | cmd/bdc/setup.go:196-199 | after removal neither event runs either prime command |
| Setup.RemoveUninstalls | cmd/bdc/setup.go:161-212 | the settings written by a removal no longer have the integration |
| Setup.RunSetup | cmd/bdc/setup.go:38-51 | the command dispatch computes the setup result |
| Setup.SetupPrecedence | cmd/bdc/setup.go:38-51 | an editor other than claude (in any case) is refused; `--check` wins over `--remove`, which ignores `--stealth` |
| Init.ContainsExactPattern | cmd/bdc/init.go:149-158 | the line scan finds the pattern exactly when some line, trimmed, equals it |
| Init.ScanLinesNewline | cmd/bdc/init.go:150-151 | a final newline adds no line to the scan |
| Init.SeparatorKeepsLines | cmd/bdc/init.go:126-128 | the newline added to an unterminated file ends it without changing its lines |
| Init.TailLines | cmd/bdc/init.go:131-132 | the appended block scans as an empty line, the comment and the pattern |
| Init.LastTwoLines | cmd/bdc/init.go:131-132 | the comment and the pattern, each ended by a newline, scan as those two lines |
| Init.AppendExcludeLines | cmd/bdc/init.go:125-132 | appending keeps the file's lines and adds an empty line, the comment and the pattern |
| Init.StealthTexts | cmd/bdc/init.go:113-131 | the comment and the pattern are single lines and the pattern is trimmed |
| Init.StealthAppendsLines | cmd/bdc/init.go:112-132 | a file without the pattern gets exactly the three lines appended |
| Init.StealthPresent | cmd/bdc/init.go:112-132 | afterwards the exclude file always has the pattern on a line of its own |
| Init.AppendKeepsText | cmd/bdc/init.go:119-132 | appending keeps the existing text as a prefix |
| Init.StealthKeepsText | cmd/bdc/init.go:106-132 | the existing exclude text is kept as a prefix |
| Init.StealthIdempotent | cmd/bdc/init.go:114-116 | configuring a second time changes nothing |
| Init.WriteInOrderStep | cmd/bdc/init.go:66-72 | each write either fails on a read-only path and stops, or writes its file |
| Init.WriteInOrderStops | cmd/bdc/init.go:66-72 | after the first failure the later writes are not made |
| Init.WriteInOrderAll | cmd/bdc/init.go:66-72 | when every path is writable each file ends with its last write and every other file is unchanged |
| Init.WriteInOrderFails | cmd/bdc/init.go:66-72 | a failure names a read-only path that was to be written |
| Init.WriteInOrderNoneWritable | cmd/bdc/init.go:66-72 | when nothing fails, no path written was read-only |
| Init.WriteInOrderNoneBefore | cmd/bdc/init.go:66-72 | when nothing fails, each path written was writable |
| Init.WriteFiles | cmd/bdc/init.go:66-72 | the writing loop writes in order and stops at the first failure, creating no directory |
| Init.MakeDir | cmd/bdc/init.go:102-104 | the directory is created unless it is read-only, and no file changes |
| Init.SetupStealthMode | cmd/bdc/init.go:92-135 | the exclude update: no git directory and an unwritable directory or file are errors; otherwise the pattern is appended unless present |
| Init.HookMergeKeeps | cmd/bdc/init.go:200-215 | a merged hook keeps the old script as a prefix, mentions beadcrumbs, and needs no second merge |
| Init.ScriptMentionsBeadcrumbs | cmd/bdc/init.go:174-194 | every hook script mentions beadcrumbs |
| Init.ScriptsMentionBeadcrumbs | cmd/bdc/init.go:173-195 | the three hook scripts all mention beadcrumbs |
| Init.InstallGitHooks | cmd/bdc/init.go:161-224 | the hook installation: no git directory or hooks directory means nothing is written; otherwise each hook is written or merged |
| Init.PathsDiffer | cmd/bdc/init.go:198 | different hook names give different hook paths |
| Init.HookWritesAre | cmd/bdc/init.go:197-221 | every hook write is to the path of one of the hooks |
| Init.HookWritesCover | cmd/bdc/init.go:197-221 | every hook that needs writing is written, and with its merged script last |
| Init.HookWriteMerged | cmd/bdc/init.go:197-221 | every write is a hook whose script needed merging or creating |
| Init.RunInit | cmd/bdc/init.go:24-88 | directory, existing-database, migration, stealth, configuration and file-creation errors in that order; hook failures are only warnings |
| Init.InitWithStore | cmd/bdc/init.go:43-80 | once the database exists: stealth setup and its error, the configuration entry, then the file-creation and hook steps |
| Init.FinishInit | cmd/bdc/init.go:59-80 | the first JSON Lines file that cannot be created is the error; outside stealth mode the hooks are installed and their failures are only warnings |
| Init.InitRefusesExisting | cmd/bdc/init.go:32-35 | an existing database is refused and no file changes |
| Init.JsonlPathsEndInL | cmd/bdc/init.go:60-64 | the three JSONL paths end in `l` |
| Init.JsonlPathsDistinct | cmd/bdc/init.go:60-64 | the three JSONL paths are distinct |
| Init.JsonlNotExclude | cmd/bdc/init.go:60-64 | no JSONL path is the exclude file |
| Init.InitCreatesFiles | cmd/bdc/init.go:24-80 | a successful init, with or without stealth mode, has the directory, the database and the three empty JSONL files |
| Init.HooksSpare | cmd/bdc/init.go:184-224 | installing the git hooks removes no file or directory and never overwrites a JSONL file |
| Init.WriteInOrderOthers | cmd/bdc/init.go:66-72 | writing in order removes no file, and a path not written keeps its content even when a write fails |
| Init.StealthSpecHides | cmd/bdc/init.go:92-135 | successful stealth setup leaves the pattern on a line of the exclude file |
| Init.InitStealthHides | cmd/bdc/init.go:43-55 | a successful stealth init hides the directory from git and records stealth mode in the configuration |
| Init.HookNamesDistinct | cmd/bdc/init.go:173-195 | the three hook names are distinct |
| Init.HookLandsMerged | cmd/bdc/init.go:197-221 | a hook that gets merged holds its merged script afterwards |
| Init.HookLeftAlone | cmd/bdc/init.go:208-211 | a hook that already mentions beadcrumbs is not written and keeps its content |
| Init.HooksInstalled | cmd/bdc/init.go:161-224 | when the hooks directory and paths are writable, every hook afterwards mentions beadcrumbs and keeps any earlier script as a prefix |

## Left out

- The SQLite engine: SQL text, the full-text index, its triggers and `SearchInsights` ranking are not modelled. Tables are maps and sequences, and constraints become error results.
- `PRAGMA integrity_check` is an input string to `Storage.Store.Verify`, not a computation.
- Ties in SQL `ORDER BY` are broken by insertion order (a stable sort). SQLite leaves that order unspecified.
- `encoding/json` is a pair of encode and decode functions with a round-trip law. Field names and the nil-versus-empty slice distinction are not modelled.
- Confidence is an opaque 32-bit value that is copied, never computed.
- `parseTimestamp` (capture) and `parseImportTimestamp` (import) are not modelled. They wrap `time.Parse`, so their result is an input.
- Month arithmetic in `parseSince` (`AddDate`) is a function parameter.
- The clock and `crypto/rand` are parameters: "now" and the random bytes.
- `BeadsPresent` and `GetBeadsDir` walk the directory tree, so whether beads is present is an input.
- `git rev-parse --git-common-dir` is an input: the git directory, or none.
- Console output and its layout are not modelled. The model returns the values each command would print.
- cmd/bdc/prime.go is not part of this model. It prints fixed text.
- cmd/bdc/feedback.go, cmd/bdc/decisions.go and cmd/bdc/pivots.go are not part of this model. Each is `ListInsights` with a fixed type followed by the timeline's reversal, and both of those are modelled.
- Unicode is not modelled. Text is ASCII, one byte per character, with ASCII case rules and blanks.
- The 64 KB line limit of `bufio.Scanner` is not modelled. Lines of any length are read.
- `bdc setup` does not model failures to find the working or home directory, or to create, marshal or write the settings file. The settings file is read as missing, unparseable or a decoded object.
- A settings file whose JSON is `null` is not modelled.
- Go's random iteration order over the hook map in `installGitHooks` is replaced by a fixed order (post-commit, post-merge, post-checkout). Only which hooks end up written is compared.
- A read error on an existing hook file is not modelled: existing hooks are always readable.
- An error from the Slack export's `filepath.Glob` is not modelled. It only happens on a malformed pattern, and the export's pattern is fixed.
- `sort.Slice` in `ParseSlackExport` is not stable. The model sorts stably, and its contract states only the order and the permutation.
- The `--auto` and `--quiet` flags of `import` change only printing, so they are not modelled.
- Whether a failed migration leaves a database file behind is not modelled. Here a failed `NewStore` creates no database file.
- Storage.Store.Close: closing cannot fail, so the error `db.Close` may return is not modelled.
- Root.Session.GetStore: the `os.MkdirAll` of the database's directory (cmd/bdc/root.go:43-47) and its "failed to create directory" error are not modelled. The database file exists at that point, so its directory does too.
- Root.Session.GetStore: a `Stat` error other than a missing file (a permission error, say) is not modelled. The source lets it through to `NewStore` (cmd/bdc/root.go:39), and here the file either exists or is missing.
- Init.RunInit: `dir` is a parameter, the directory part of `dbPath` (`filepath.Dir`, cmd/bdc/init.go:25). Path manipulation is not modelled, so the two are not tied together in the contract.
- Init.MakeDir: `os.MkdirAll` creates only the named directory here. Missing parent directories are not modelled.
- Init.RunInit: recording `stealth_mode` in the configuration cannot fail, so the error branch at cmd/bdc/init.go:50-53 is not modelled.

## Findings

| source | as written | input that shows it | evidently intended | confidence | as-written member | corrected member |
|---|---|---|---|---|---|---|
| cmd/bdc/thread.go:183-184 | `thread list` and `thread close` bind their `--status` flags to the one variable `threadStatus`. pflag stores a flag's default in its variable when the flag is registered, so `close`, registered last, leaves `concluded` there. | `bdc thread list` with no `--status`, while one active thread is stored: the filter is `concluded` and nothing is listed. | Without `--status`, `thread list` lists every thread (its own default is ""), and `close` concludes. | medium (relies on pflag assigning defaults at registration), not executed | Threads.StatusFlagAsWritten, shown by Threads.ListDefaultHidesActive | Threads.StatusFlag, proved in Threads.DefaultStatusAllThreads and used by Threads.RunThreadList and Threads.RunThreadClose |
| cmd/bdc/spawn.go:83 | The placeholder bead is `"bead-" + GenerateID("")[4:]`. With the empty prefix the identifier is a dash and four hex digits, so the cut keeps only the last digit. | Random bytes 00 00 and 00 10 give the different identifiers `-0000` and `-0010`, but the same placeholder `bead-0`. Only 16 placeholders exist, so spawns from different insights share beads. | The placeholder keeps all four hex digits after the dash, like every other generated identifier. | high, not executed | Spawn.PlaceholderAsWritten, shown by Spawn.PlaceholderAsWrittenCollides | Spawn.PlaceholderBeadId, proved in Spawn.PlaceholderDistinct and used by Spawn.SpawnIn |
