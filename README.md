# Mind memory engine, modelled in Dafny

Mind keeps long-term memories for AI agents in SQLite. It has two parts:

- a `memories` table, one row per memory;
- a `vec_memories` vector index holding one embedding per live row.

This project models four pieces of it:

- **The engine (`mind/memory_engine.py`).** The tag helpers `_normalize_tags` and `_parse_tags`, and the row-to-dictionary shaping. The precedence rules by which `create_memory` settles type, tags, importance and summary. The five operations `create_memory`, `get_memory`, `search_memories`, `update_memory` and `delete_memory`.
- **The store layer (`mind/db.py`).** The commit-on-success unit of work `db_conn`; the probing policy of `_load_sqlite_vec`; the idempotent script of `create_schema`.
- **The handlers (`mind/ui.py`).** `_split_tags` and the argument mapping done by `add_memory_handler`, `search_handler` and `delete_handler`.
- **The Python string behaviour these rest on.** `str.strip`, `str.split` and `str.join`, and the order-preserving de-duplication of `dict.fromkeys`.

The model is laid out as follows:

- `basics.dfy`: `Option` and `Result`.
- `seqs.dfy`: de-duplication and filtering.
- `text.dfy`: the string operations.
- `db.dfy`: module `Db`.
- `memory_engine.dfy`: module `MemoryEngine`.
- `ui.dfy`: module `Ui`.

The engine's persistent state is the class `MemoryEngine.Store`. Its fields are:

- `memories`, the table;
- `vectors`, the index;
- `nextId`, the AUTOINCREMENT counter;
- `clusters`, the ids of the `clusters` table, which the engine never writes.

Embeddings are an opaque type parameter `V`. Each store method is specified by a pure function of the old state:

- `PlanCreate` and `Insert` for create;
- `Lookup` for get;
- `Conditions` and `Hits` for search;
- `PlanUpdate` and `ApplyUpdate` for update;
- `SoftDeleted` for delete.

The lemmas are stated over those functions. Every method keeps the invariant `Consistent`:

- ids are positive, below the counter and equal to their key;
- uuids are unique;
- a vector exists exactly for the rows whose `deleted_at` is NULL.

The parts that lie outside the program become parameters:

- the classifier: `string -> Classified`;
- the embedder: `string -> Result<V, string>`;
- the clock: a timestamp `ts`;
- `uuid4`: a `uuid` string;
- the configured AI default: `aiDefault`;
- the filesystem and the extension loader: `Db.Loader`;
- the nearest-neighbour search.

The nearest-neighbour search is a distance oracle `dist: nat -> int` plus the index's answer `matches`. `IsNearest` constrains `matches`: it must hold exactly the top-k ids by `dist`, nearest first. A transaction is modelled by `Db.Persisted`: the working state is committed when the block completes, and discarded when it raises.

Behaviour of the code worth knowing, all of it modelled as written:

- **Case-sensitive tags.** De-duplication compares stripped tags exactly, so `["Work", " work ", "", "Focus"]` is stored as `Work,work,Focus` (`CaseSensitiveExample`).
- **Classifier failures.** Only an `LLMError` from the classifier is absorbed. Any other failure (an HTTP status or a transport error) propagates and aborts creation (`Classified.OtherFailure`, `Error.ClassifierFailed`).
- **Empty text.** Empty text is accepted by create.
- **Update can store an empty type.** `update_memory` does not check the type, so `type_=""` is stored as given.
- **Embedding inside the transaction.** `update_memory` embeds new text inside its open transaction. A failed embedding therefore undoes the UPDATE as well (`PlanUpdate`, `Store.Update`).
- **Get returns deleted rows.** `get_memory` selects by id alone, so it returns soft-deleted rows too.
- **Repeated delete.** `delete_memory` re-stamps `deleted_at` on a row that was already deleted.
- **Unknown cluster.** Connections turn foreign keys on, so a `cluster_id` that names no cluster makes the INSERT or UPDATE fail (`Error.UnknownCluster`).

## Model

| member | source | states |
|---|---|---|
| Seqs.Dedup | mind/memory_engine.py:21-22 | the result holds exactly the elements of the input, each once, and is no longer than the input |
| Seqs.DedupFirstOccurrenceOrder | mind/memory_engine.py:21 | de-duplicated elements appear in the order of their first occurrence in the input |
| Seqs.DedupIdempotent | mind/memory_engine.py:21 | de-duplicating twice is de-duplicating once |
| Seqs.DedupSnoc | mind/memory_engine.py:21 | appending an element to the input appends it to the output exactly when it is new |
| Seqs.Filter | mind/db.py:54-55 | the kept elements all satisfy the test and are no more than the input; `FilterMembers` gives where they come from |
| Seqs.FilterMembers | mind/db.py:54-55 | every kept element is an input element, and every input element that satisfies the test is kept |
| Seqs.FilterEmpty | mind/db.py:54-55 | nothing is kept exactly when no element satisfies the test |
| Text.Trim | mind/memory_engine.py:17 | `str.strip()`: the result has no whitespace at either end and is empty exactly when the input is all whitespace |
| Text.TrimChars | mind/memory_engine.py:17 | stripping only keeps characters of the input |
| Text.TrimOfTrimmed | mind/memory_engine.py:28 | a string without outer whitespace strips to itself |
| Text.TrimStartShape | mind/memory_engine.py:17 | what a left strip removes is a whitespace prefix of the input |
| Text.TrimEndShape | mind/memory_engine.py:17 | what a right strip removes is a whitespace suffix of the input |
| Text.Split | mind/memory_engine.py:28 | `str.split(",")` gives at least one piece and no piece holds the separator |
| Text.SplitOfBlank | mind/ui.py:176 | a text of separators and whitespace splits into all-whitespace pieces |
| Text.JoinSplit | mind/memory_engine.py:28 | joining the pieces of a split with the separator restores the text |
| Text.SplitJoin | mind/memory_engine.py:22-28 | splitting a join of separator-free pieces gives the pieces back |
| Text.Join | mind/memory_engine.py:22 | `",".join(xs)` is empty for no pieces and otherwise starts with the first piece |
| Text.Contains | mind/memory_engine.py:162-163 | the LIKE filter `%tag%` as containment: a contained tag is never longer than the text |
| Text.ContainsAt | mind/memory_engine.py:162-163 | a tag occurring at any position of the tag text satisfies the LIKE filter |
| Text.ContainsSomewhere | mind/memory_engine.py:162-163 | conversely, a tag satisfying the LIKE filter occurs at some position of the tag text |
| Db.Render | mind/db.py:63-74 | the text recorded for an attempt is exactly the path, then ` (entry)` for an entry-point attempt only, then ` -> ` and the error message |
| Db.Details | mind/db.py:76 | the details are "no candidate paths found" exactly when nothing was recorded; otherwise they start with the first recorded attempt and contain the rendering of every recorded attempt |
| Db.Report | mind/db.py:57-77 | a success reports its path and route; a failure is the `OperationalError` whose message is "Could not load sqlite-vec. Tried: " followed by the details, with cause `last_err`, the last recorded error, or no cause when nothing was tried |
| Db.WithSuffix | mind/db.py:35-37 | `with_suffix` keeps the directory and makes the final component the old stem followed by the suffix |
| Db.JoinPath | mind/db.py:42-43 | `home / rel` is the home text, at most one slash, then `rel` |
| Db.LoadedCandidate | mind/db.py:50-71 | a loaded extension is one of the candidates, exists on disk and loaded by the reported route |
| Db.ExecuteScript | mind/db.py:93-141 | a script that succeeds keeps every existing object unchanged and defines every name it creates |
| Db.SchemaScript | mind/db.py:95-140 | every statement of the schema script is `IF NOT EXISTS` |
| Db.CreateSchema | mind/db.py:91-142 | `create_schema` never fails, keeps every existing object as it was, and leaves the four tables and two indexes defined |
| Db.Persisted | mind/db.py:80-88 | after a `db_conn` block the database holds the body's writes when the body completed and the state it started from when the body raised |
| Db.EarlierCommitSurvives | mind/db.py:83-88 | a body that raises after an earlier connection committed leaves exactly what that earlier commit wrote |
| Db.ProbeEntries | mind/db.py:68-75 | a failure records one attempt per entry point; a success names an entry point that loads |
| Db.AllEntriesFailed | mind/db.py:68-75 | a failed probe means every entry point failed, and attempt `i` is entry `i` on that path with its own error message, in order |
| Db.FirstEntryWins | mind/db.py:68-75 | when entries before `k` fail and entry `k` loads, the probe succeeds through entry `k`, whatever the later entries would do |
| Db.ProbePath | mind/db.py:56-75 | a direct load that works ends the probe; a `TypeError` falls through to the entry points with nothing recorded; an `OperationalError` is recorded first and then the entry points decide success, their attempts following it on failure |
| Db.TryEntries | mind/db.py:68-75 | the entry-point loop returns at the first entry that loads, and otherwise appends every failure to `tried` in order with `last_err` the last one, as `ProbeEntries` does |
| Db.TryPath | mind/db.py:56-75 | the direct load and then the entry points on one path compute `ProbePath`: a success with its route, or the failed attempts in the order made |
| Db.ProbeNext | mind/db.py:50-75 | one turn of the candidate loop: a seen or missing path records nothing; an existing new path either ends the probe with its success or appends its attempts |
| Db.ProbeCandidates | mind/db.py:46-77 | the loop over the candidates with its `seen`, `tried` and `last_err` gives exactly the reference policy: the first success among the distinct existing candidates, else an error listing every attempt, caused by the last |
| Db.LoadSqliteVec | mind/db.py:29-77 | a base path with an empty name fails in `with_suffix`; otherwise the result is the report of probing the ten candidates, and a loaded extension is an existing candidate that loaded by the reported route |
| Db.Candidates | mind/db.py:33-44 | the ten candidate paths, in the order of the source |
| Db.Suffix | mind/db.py:35-37 | the suffix that `with_suffix` replaces is a tail of the final path component |
| Db.PlainNameRepeats | mind/db.py:34-35 | for a base without a suffix the second candidate equals the first, which the `seen` set then skips |
| Db.ProbeAllConcat | mind/db.py:50-75 | probing two lists of paths one after the other is probing the first and, unless it loaded, the second, with the attempts concatenated |
| Db.ProbedStep | mind/db.py:50-55 | a candidate already seen or not on disk leaves the probe as it was; a new existing one is tried after the earlier ones |
| Db.StopsAtFirstSuccess | mind/db.py:57-71 | once a prefix of the candidates has loaded, the later candidates change nothing |
| Db.LoadsAt | mind/db.py:57-59 | a new existing candidate that loads ends the whole probe with that path |
| Db.FailsAt | mind/db.py:60-75 | a new existing candidate that fails adds its attempts after the earlier ones |
| Db.LoadedIsProbed | mind/db.py:50-71 | a reported success is one of the probed paths, loaded by the reported route |
| Db.FirstSuccessWins | mind/db.py:57-71 | when every earlier path fails, the first path that loads is the one reported |
| Db.AllFail | mind/db.py:46-77 | nothing loads exactly when every probed path fails, and then `tried` is empty exactly when no path was probed |
| Db.NoCandidateFound | mind/db.py:76-77 | nothing is recorded exactly when none of the candidates exists; by `Details`, that is exactly when the error says "no candidate paths found" |
| Db.GuardedScriptDefines | mind/db.py:93-141 | a script of IF NOT EXISTS statements never fails, keeps every existing object and defines every name it creates |
| Db.GuardedScriptNoOp | mind/db.py:93-141 | on a schema that already has all its names such a script changes nothing |
| Db.GuardedScriptIdempotent | mind/db.py:93-141 | running such a script twice has the effect of running it once |
| Db.CreateSchemaIdempotent | mind/db.py:91-142 | `create_schema` never fails and applying it again yields the same schema |
| Db.FreshSchema | mind/db.py:95-140 | on an empty database the script creates the four tables and two indexes; in `memories` exactly uuid, text, created_at and updated_at are NOT NULL and exactly uuid is UNIQUE |
| MemoryEngine.Cleaned | mind/memory_engine.py:17 | every kept tag is non-empty and stripped, and no more tags come out than went in |
| MemoryEngine.CleanedBlank | mind/memory_engine.py:17-19 | nothing survives cleaning exactly when every entry is empty or whitespace |
| MemoryEngine.CleanedKeeps | mind/memory_engine.py:17 | every entry that is not blank contributes its stripped form |
| MemoryEngine.CleanedFrom | mind/memory_engine.py:17 | every kept tag is the stripped form of some input entry |
| MemoryEngine.CleanedCommaFree | mind/memory_engine.py:17 | comma-free entries give comma-free tags |
| MemoryEngine.CleanedOfClean | mind/memory_engine.py:28 | a list of non-empty stripped entries is its own cleaning |
| MemoryEngine.NormalizeTags | mind/memory_engine.py:14-22 | `None` gives `None`; a list gives `None` exactly when all its entries are blank; a stored tag text is never empty |
| MemoryEngine.ParseTags | mind/memory_engine.py:25-28 | every parsed tag is non-empty, stripped and free of commas |
| MemoryEngine.ParseNothing | mind/memory_engine.py:25-27 | a NULL or empty tag text parses to no tags |
| MemoryEngine.ParseJoined | mind/memory_engine.py:22-28 | clean comma-free tags joined with "," parse back to the same list |
| MemoryEngine.DistinctCleaned | mind/memory_engine.py:17-21 | the tags `_normalize_tags` keeps are non-empty, stripped and, for comma-free input, comma-free |
| MemoryEngine.ParseNormalize | mind/memory_engine.py:14-28 | for comma-free entries, parsing the normalised text gives the distinct stripped non-blank entries in first-occurrence order |
| MemoryEngine.NormalizeIdempotent | mind/memory_engine.py:14-28 | normalising the tags read back from a normalised text changes nothing |
| MemoryEngine.NormalizeSome | mind/memory_engine.py:18-22 | when some entry is not blank the stored text is the join of the distinct cleaned entries |
| MemoryEngine.DistinctTagsKept | mind/memory_engine.py:17-22 | two entries whose stripped forms differ in any way, letter case included, are both stored, in order |
| MemoryEngine.CaseSensitiveExample | mind/memory_engine.py:14-22 | the entries "Work", " work ", "" and "Focus" are stored as `Work,work,Focus` |
| MemoryEngine.NormalizeOfDistinct | mind/memory_engine.py:17-22 | cleaned entries that are already distinct are stored joined with "," as they are |
| MemoryEngine.RepeatedTagDropped | mind/memory_engine.py:21-22 | two entries with the same stripped form are stored once |
| MemoryEngine.ToMemory | mind/memory_engine.py:31-55 | the returned dictionary copies every column of the row (id, uuid, user, agent, source, type, text, summary, importance, conversation, cluster, the three timestamps, deleted_at and the extension payload), parses the tags, and carries the distance only from a search |
| MemoryEngine.StoredExtra | mind/memory_engine.py:95 | the extension payload is stored exactly when it is a non-empty object, so `{}` reads back as `None` |
| MemoryEngine.AiEnabled | mind/memory_engine.py:73 | AI assistance is `use_ai` when given, else the configured default |
| MemoryEngine.ResolveType | mind/memory_engine.py:81-84 | the type is never empty: an explicit non-"auto" non-empty type wins; an unset type takes a non-empty guess; an explicit empty type, or an unset type with no usable guess, becomes "note" |
| MemoryEngine.Resolve | mind/memory_engine.py:81-88 | each explicit tags, importance and summary beats the guess, which fills only what is missing |
| MemoryEngine.ResolveRequest | mind/memory_engine.py:73-88 | resolution fails exactly when the classifier is consulted and fails with something other than `LLMError`; a consulted classifier's guess fills the unset fields, and when it is not consulted the fields resolve against an empty guess; explicit values are kept and the type is non-empty |
| MemoryEngine.ClassifierOnlyWhenNeeded | mind/memory_engine.py:73-79 | when AI is off or no field is unresolved, the classifier's answer cannot affect the result |
| MemoryEngine.LlmErrorIsEmptyGuess | mind/memory_engine.py:76-84 | an `LLMError` is an empty guess: creation continues and an unset type becomes "note" |
| MemoryEngine.NewRow | mind/memory_engine.py:91-125 | the inserted row has the given id and uuid, the caller's text, the resolved type, normalised tags, both timestamps `ts`, no access or deletion stamp and the stored payload |
| MemoryEngine.PlanCreate | mind/memory_engine.py:73-131 | a planned insert takes the next id and a free uuid, names a known cluster and carries the embedding of the text; a uuid conflict is reported only for a taken uuid |
| MemoryEngine.Insert | mind/memory_engine.py:99-130 | the insert adds the row and its vector under the row's id, changes no other row or vector, and moves the counter one past the id |
| MemoryEngine.CreateFailures | mind/memory_engine.py:58-132 | creation fails exactly on a non-`LLMError` classifier failure, a failed embedding, a taken uuid or an unknown cluster |
| MemoryEngine.CreateRecord | mind/memory_engine.py:91-131 | the new row has a fresh id, the given uuid, created_at = updated_at = ts, NULL last_accessed_at and deleted_at, the given text and a non-empty type; its vector is stored under the same id and no other row or vector changes |
| MemoryEngine.CreateKeepsConsistent | mind/memory_engine.py:99-130 | inserting the row and its vector together keeps the invariants |
| MemoryEngine.CreateReadBack | mind/memory_engine.py:94-132 | the returned memory carries the explicit importance, summary and type, the distinct cleaned tags, the identifiers and source as given and the stored extension payload |
| MemoryEngine.CreateUsesGuess | mind/memory_engine.py:76-131 | when the classifier answers, the stored memory takes the unset type (with the "note" fallback), importance, summary and tags from its guess, and the guessed tags are normalised like given ones |
| MemoryEngine.Lookup | mind/memory_engine.py:135-138 | get finds a memory exactly when a row has the id, deleted or not, and returns that row |
| MemoryEngine.TypeCondition | mind/memory_engine.py:156-158 | an absent or empty type filter adds no condition; any other adds the one type test |
| MemoryEngine.BoundConditions | mind/memory_engine.py:165-170 | one creation-time test per given bound, `since` first and `until` last, and nothing else |
| MemoryEngine.Conditions | mind/memory_engine.py:153-170 | the WHERE clause always starts with the `deleted_at IS NULL` test |
| MemoryEngine.TagConditionsAt | mind/memory_engine.py:160-163 | one LIKE filter per requested tag, in the order of the tags |
| MemoryEngine.ConditionsMeaning | mind/memory_engine.py:153-170 | the WHERE clause holds for a row exactly when it is live, of the requested type when a non-empty one is given, holds every requested tag in its tag text and lies within the given bounds |
| MemoryEngine.HoldsAllConcat | mind/memory_engine.py:172 | the AND of two lists of conditions is the AND of each |
| MemoryEngine.Hits | mind/memory_engine.py:184-193 | no more results than matched ids |
| MemoryEngine.HitsSound | mind/memory_engine.py:184-193 | every result is the row of a matched id that meets all the conditions, with that id's distance |
| MemoryEngine.HitsComplete | mind/memory_engine.py:184-193 | every matched id whose row meets all the conditions is returned |
| MemoryEngine.HitsOrdered | mind/memory_engine.py:177-188 | results come nearest first when the index answers nearest first |
| MemoryEngine.FiltersOnlyRemove | mind/memory_engine.py:153-187 | more conditions can only remove results |
| MemoryEngine.SearchSound | mind/memory_engine.py:141-193 | a search returns at most `top_k` memories, all indexed and live, each meeting the type, tag and time criteria |
| MemoryEngine.Patched | mind/memory_engine.py:213-226 | each missing argument keeps the stored value, given tags are normalised, updated_at is refreshed and every other column stays |
| MemoryEngine.EmptyTagsClear | mind/memory_engine.py:215 | passing `[]` as the tags clears the stored tags |
| MemoryEngine.PlanUpdate | mind/memory_engine.py:206-234 | update does nothing exactly for a missing or deleted id; otherwise it yields the patched row, with a vector exactly when text was given, and an error only for a live row |
| MemoryEngine.ApplyUpdate | mind/memory_engine.py:220-234 | the patched row is written under its id and no other row changes; the vector index changes only when a vector was computed, and then holds it under the id; the counter is kept |
| MemoryEngine.UpdateOutcomes | mind/memory_engine.py:196-237 | update gives `None` exactly for a missing or deleted id, fails exactly on an unknown cluster or a failed embedding of given text, and otherwise yields the patched row with a new vector exactly when text was given |
| MemoryEngine.UpdateEffect | mind/memory_engine.py:206-234 | an update keeps uuid, created_at and deleted_at, changes no other row, leaves the index alone without text and replaces the id's vector with it, and keeps the invariants |
| MemoryEngine.SoftDeleted | mind/memory_engine.py:240-244 | delete keeps the set of rows, stamps deleted_at of an existing row, drops exactly that id from the vector index and keeps the counter |
| MemoryEngine.DeleteEffect | mind/memory_engine.py:240-244 | delete stamps deleted_at on its row and nothing else, drops that id's vector, keeps the invariants, and changes no row for a missing id |
| MemoryEngine.DeleteRestamps | mind/memory_engine.py:243 | deleting twice is deleting once with the later stamp |
| MemoryEngine.GetAfterDelete | mind/memory_engine.py:135-138 | a deleted row is still returned by get, with deleted_at set |
| MemoryEngine.DeletedNotSearched | mind/memory_engine.py:244 | no later search returns a deleted row |
| MemoryEngine.SameUuids | mind/db.py:97 | rewriting rows without touching their uuids keeps uuids unique |
| MemoryEngine.AppendTagFilters | mind/memory_engine.py:160-163 | the loop over the tags appends one LIKE filter per tag, in order |
| MemoryEngine.AppendBoundFilters | mind/memory_engine.py:165-170 | the `since` filter and then the `until` filter are appended exactly when given |
| MemoryEngine.BuildConditions | mind/memory_engine.py:153-170 | the filters built step by step are the WHERE clause `Conditions` |
| MemoryEngine.Store.constructor | mind/db.py:91-141 | a freshly created schema holds no rows, vectors or clusters and the counter starts at 1 |
| MemoryEngine.Store.Finish | mind/db.py:83-88 | leaving the unit of work commits the working tables after completion and keeps the old ones after an error |
| MemoryEngine.Store.Create | mind/memory_engine.py:58-132 | create returns the new memory and inserts its row and vector as `PlanCreate` says, or returns the error and leaves the store unchanged; the invariants hold afterwards |
| MemoryEngine.Store.Get | mind/memory_engine.py:135-138 | get returns `Lookup` of the current tables |
| MemoryEngine.Store.Search | mind/memory_engine.py:141-193 | search fails exactly when the query cannot be embedded; otherwise it returns the filtered joined rows in match order, at most `top_k` of them, nearest first |
| MemoryEngine.Store.Update | mind/memory_engine.py:196-237 | update applies `PlanUpdate`: `None` or an error leaves the store unchanged, a success writes the patched row and the new vector, and the invariants hold afterwards |
| MemoryEngine.Store.Delete | mind/memory_engine.py:240-244 | delete leaves the store as `SoftDeleted` and keeps the invariants |
| Ui.SplitTags | mind/ui.py:173-176 | an absent or empty field gives `None`; otherwise the pieces are non-empty, stripped and comma-free |
| Ui.SplitAgreesWithParse | mind/ui.py:176 | on non-empty text `_split_tags` and `_parse_tags` give the same list |
| Ui.SplitBlank | mind/ui.py:176 | a text of only commas and whitespace gives an empty list, not `None` |
| Ui.SplitKeepsRepeats | mind/ui.py:176 | a tag written twice comes out twice |
| Ui.SplitJoined | mind/ui.py:176 | clean comma-free tags written out with "," come back unchanged |
| Ui.OrNone | mind/ui.py:203-206 | an absent or empty string becomes `None`, anything else is kept |
| Ui.TypeChoice | mind/ui.py:200 | "auto" becomes `None`, any other choice is passed as given |
| Ui.AddRequest | mind/ui.py:198-209 | the call passes the text, source "ui", the importance and AI flag as given, no cluster and no payload; the type is `TypeChoice` of the selector, the tags `SplitTags` of the field, and user, agent, conversation and summary are each `OrNone` of their field, so an empty field is `None` and any other is passed unchanged |
| Ui.AddConsultsClassifier | mind/ui.py:198-209 | through the form the classifier is consulted exactly when the AI box is ticked and the type is "auto" or the tags or summary field is empty |
| Ui.AddExplicitType | mind/ui.py:200 | a chosen type other than "auto" and "" is stored as chosen |
| Ui.AddBlankTagsStoreNone | mind/ui.py:201 | a tags field of only commas overrides the classifier's tags and stores no tags |
| Ui.TypeFilter | mind/ui.py:228 | an empty type filter becomes `None`, any other is passed as given |
| Ui.SearchTypeFilter | mind/ui.py:228 | an empty type filter selects every type, any other adds exactly the test for that type |
| Ui.AddMemoryHandler | mind/ui.py:179-209 | the handler's effect and result are those of create on the mapped request |
| Ui.SearchHandler | mind/ui.py:212-230 | the handler's result is that of search on the mapped filter and tags, without time bounds |
| Ui.DeleteHandler | mind/ui.py:233-242 | the reply names the requested id whether or not a row had it, and the store is left as `SoftDeleted` |

## Left out

- SQLite `LIKE` is ASCII case-insensitive and treats `%` and `_` inside a tag as wildcards. The model treats the tag filter as plain substring containment.
- Path handling works on already normalised POSIX path text. `pathlib` normalisation (repeated or trailing slashes, `.` components) and the meaning of `Path.home()` are not modelled.
- `topK` is a `nat`: the negative `LIMIT` that Python would pass through is not modelled. Neither is sqlite-vec's own cap on `k`.
- The embedding dimension check of the `vec0` table is not modelled. The vector index is a map from id to an opaque embedding, and the vector search is the `dist`/`matches` oracle.
- Ties among equal distances are not ordered by the model. `IsNearest` accepts any nearest-first order.
- The classifier's reply shapes (arbitrary JSON) are not modelled. A guess has an optional type, tags, importance and summary.
- Opening a connection is not modelled. This covers connect failures, the WAL and foreign-key PRAGMAs, and enabling extension loading. Foreign keys being on shows up only as `ClusterKnown`.
- `executescript` runs SQL text. The model runs a list of typed CREATE statements instead, and it leaves out the `clusters` and `memory_relations` foreign keys beyond the tables' existence.
- JSON encoding of embeddings and `extra_json` is not modelled: a payload is a map of strings.
- Floating-point values are not modelled. Importance is a `real`, and a distance is an `int` chosen by the oracle.
- `async`/`await` is treated as sequential calls, and no concurrency is modelled.
- The Gradio layout, CSS and application start-up are not modelled.
- Configuration loading is not modelled. The AI-assist default is the `aiDefault` parameter and the library path is the `base` parameter.
- mind/llm.py and mind/embeddings.py are not part of this model. They appear as the `classify` and `embed` parameters.
- `_normalize_tags` skips falsy entries (`None`, `0`, `""`) before stripping, and raises `AttributeError` on a truthy entry that is not a string (an integer in the classifier's tag list, say). The model takes tags as strings, so neither case arises.
- Db.Candidates: states only that there are ten candidates. The candidates themselves are given by its body, which lists them in source order.
- Ids are `nat`. Python also accepts a negative `memory_id`: get and update then return `None` and delete does nothing. The model does not cover those calls.
- Db.WithSuffix: a suffix containing "/" is excluded; Python raises `ValueError` for one, and the loader passes only "", ".so" and ".dylib".
- A failing `commit()` or `close()` in `db_conn` is not modelled. `Db.Persisted` takes the commit to succeed once the body completes.
