# Offline benchmark pipeline and migration runner, modelled and proved in Dafny

The repository measures retrieval and hypothesis discovery on a synthetic organisation. A seeded generator makes a corpus
of versioned records and questions; a loader builds sixteen related tables from it; update batches then change those
tables in place, statement by statement; evaluators, samplers, validators and aggregators read the result. A separate
script migrates the database schema while other processes may be doing the same. This project models those parts and
proves what their tests and documentation promise, over every input and every run.

How the files fit together:

- `Prelude`, `Corpus`, `Text`, `Json`, `JsMap`: shared values. `stableId(namespace, value)` is the datatype `Corpus.Id`, one
  constructor per namespace, so identifiers are equal exactly when their parts are. JavaScript's insertion-ordered `Map` is
  a list of pairs.
- `Lcg`, `Generator`, `Names`, `LiveProjects`, `Coverage`, `Identities`, `Census`, `LongDocuments`: the corpus generator.
  `Permissions`: the access grants of the workspace, which `canRead` must agree with.
- `Updates`, `UpdateLaws`, `Transformers`, `HumanQuestions`, `HumanLaws`, `Wordings`, `QuestionLaws`: update batches, the
  two question adders, what texts and questions say, and who is asked about what.
- `Validator`, `Lineage`, `Bodies`, `CorpusRuns`: the corpus validator and the invariant of every corpus that any sequence
  of accepted operations can make.
- `Statements`, `RecordRows`, `Chunking`, `ScaleTables`, `ScaleRows`, `ScaleSchema`, `ScaleDatabase`: the tables, each SQL
  statement as its effect on one table, checked slice by slice against the table's primary, foreign and unique keys, and
  the class whose methods run them. Every method is proved equal to a function of the old tables with the exact condition
  for success; an ingest or batch that a key stops rolls back.
- `ScaleState`, `ScaleIngest`, `ScaleBatch`: every table of a reached database is described row by row by what happened to
  each record (`Tracks`). From that one invariant follow `Citations` and `BatchEffects` (what the rows say, in terms of
  records and of the tables alone), `ScaleView` and `ScaleRuns` (incremental maintenance equals a rebuild),
  `ScaleReplay`, `ScaleTimeline`, `ScaleConstraints` (when the schema holds), `Refusals` (valid corpora that it refuses),
  `ScaleIntegrity`, `ScaleReachable`, `EntityNames`, `Retrieval` (what the permissioned searches can return).
- `ScaleBenchmark`: the benchmark script from options to inspection.
- `ModelRouter`, `Monitor`: the monitor benchmark. `RoundRobin`, `Sampler`, `Ranking`, `Metrics`: sampling and retrieval
  metrics. `Reviewer`, `Aggregation`, `AggregationBounds`, `CasePacket`: hypothesis reviews. `MonitorCounts`,
  `SampleFields`, `RetrievalFigures` and `ReviewFigures` say what the published figures count, on the records, places and
  scores themselves. `Migrations`, `MigrationProtocol`: one migration run, and any number of them interleaved with crashes.

Where the code does not do what one would expect, the model follows the code and says exactly when it does:

- `generateScaleCorpus` accepts 100 records, but with its other defaults it fails with fewer than 201: a question project
  may have no live record. `LiveProjects.LiveExactlyWhenEnough` gives the condition for all options,
  `LiveProjects.DefaultsNeed201Records` the one for the defaults.
- `chunkText` can return a chunk one or two characters longer than `maxCharacters`, because a boundary is taken after its
  marker. `Chunking.LimitExceededExactly` says for which texts, `Chunking.LimitCanBeExceeded` gives one.
- A corpus can pass `validateScaleCorpus` and still be refused by the database: two versions of a record with one content
  hash (`Refusals.RepeatedBodyIsRefused`), two records with one source and external identifier
  (`Refusals.RepeatedExternalIsRefused`) or two clients whose names differ only in case or punctuation
  (`Refusals.RepeatedAliasIsRefused`) violate unique keys of the schema. Loading and updating succeed exactly without such
  pairs (`ScaleRuns.RunBenchmark`), and generated corpora never have any (`CorpusRuns.SchemaAlwaysHolds`).
- Batches never refresh `entities.normalized_name`. The name of an evidence resource is stale exactly when a batch has
  revised its record; all other names stay right (`EntityNames.NamesAfterRun`).
- `addHumanAuthoredQuestions` writes an undefined query for an exact-name question about a project without records
  (`HumanQuestions.QueryCanBeUndefined` gives a corpus and an accepted packet), and for no other: no added query is
  undefined exactly when every such project has a record (`HumanQuestions.HumanQueriesDefined`).

Search results, the locale's order of strings, `Date.parse` and the failing of SQL scripts are parameters. Real numbers are
exact.

## Model

| member | source | states |
|---|---|---|
| Lcg.StepIsCongruence | src/modules/benchmarks/scale-corpus.ts:135-141 | the `Math.imul` and `>>> 0` form is (1664525 s + 1013904223) mod 2^32 for every 32-bit state |
| Lcg.StepIsPermutation | src/modules/benchmarks/scale-corpus.ts:135-141 | the step is a permutation of the 2^32 states, with an explicit inverse on both sides |
| Lcg.Random.Next | src/modules/benchmarks/scale-corpus.ts:135-141 | each call returns the next state of the seed's sequence as a fraction in [0, 1) |
| Lcg.RandomIndexInRange | src/modules/benchmarks/scale-corpus.ts:285-285 | the derived issue index is always in range, and for eight issues it is the top three bits of the state |
| Generator.GenerateRecords | src/modules/benchmarks/scale-corpus.ts:256-326 | the record loop with its mutable random state pushes exactly the records that index and seed determine |
| Generator.GenerateQuestions | src/modules/benchmarks/scale-corpus.ts:327-357 | succeeds exactly when every selected project has a live record, then asks each project's question for the three actors |
| Generator.GenerateScaleCorpus | src/modules/benchmarks/scale-corpus.ts:238-360 | succeeds exactly for valid options whose selected projects all have a live record |
| Names.NormalizeInjective | src/modules/benchmarks/scale-corpus.ts:143-148 | different capitalised names stay different when normalised, as slugs and, with a space for separator, as aliases |
| Names.ReferenceInjective | src/modules/benchmarks/scale-corpus.ts:168-181 | unshared references of one system identify the name they were made from |
| Names.ProjectNamesRepeat | src/modules/benchmarks/scale-corpus.ts:159-166 | two project names are equal if and only if the client numbers agree modulo 100 and the ordinals modulo 4 |
| LiveProjects.TwoCyclesAreLive | src/modules/benchmarks/scale-corpus.ts:256-340 | twice as many records as projects, and a project count not divisible by 41, always suffice for generation |
| LiveProjects.LiveExactlyWhenEnough | src/modules/benchmarks/scale-corpus.ts:327-340 | for all accepted options: generation succeeds if and only if every selected project whose first record is deleted has a second record, a computed gap later, that exists and is not deleted too |
| LiveProjects.DefaultsNeed201Records | src/modules/benchmarks/scale-corpus.ts:241-247 | with the other options at their defaults, generation succeeds if and only if there are more than 200 records |
| Coverage.PairAtNumber | src/modules/benchmarks/scale-corpus.ts:256-276 | a record has a given pair of source system and visibility if and only if project number plus cycle has that pair's remainder modulo 20 |
| Coverage.CoversEveryPair | src/modules/benchmarks/scale-corpus.ts:256-276 | any 20 consecutive records of a project hit each of the 20 pairs of source system and visibility exactly once, for every project count |
| Census.GeneratedCensus | src/modules/benchmarks/scale-corpus.ts:256-326 | for every accepted option set, closed forms for how many records are deleted, ambiguous or duplicates, how many versions there are, and how many records have several or change their stance |
| Wordings.GeneratedTextSays | src/modules/benchmarks/scale-corpus.ts:183-236 | the text of every generated version contains its source's phrase, its issue, its conclusion and both canonical names; its title contains project and issue and ends with the version; its date is 3 days per record and 17 per version after the start of 2025, modulo 600 |
| LongDocuments.EveryThirtyFirstIsLong | src/modules/benchmarks/scale-corpus.ts:211-227 | every text of a record whose number 31 divides is longer than 1600 characters; any other text has at most 500 characters and the digits of its duplicate group |
| LongDocuments.LongHasSections | src/modules/benchmarks/scale-corpus.ts:211-227 | each such text has 18 numbered sections of at least 150 characters that name client and project |
| Wordings.DuplicatesAreMarked | src/modules/benchmarks/scale-corpus.ts:280-284 | exactly every eleventh record from the twelfth on is a duplicate of the record eleven before it, and the text of each of its versions contains the group's marker |
| Wordings.ReferenceSays | src/modules/benchmarks/scale-corpus.ts:168-181 | what the references of the five sources look like, and those of shared aliases |
| Wordings.GeneratedQuestionsSay | src/modules/benchmarks/scale-corpus.ts:327-357 | three questions for each selected project, each searching for and asking by the name of a live record of it |
| QuestionLaws.GeneratedQuestionsAre | src/modules/benchmarks/scale-corpus.ts:327-357 | a generated corpus asks, project by project in the order of their first records, one question for each of Alex, Jamie and Morgan; how many projects follows from the options, also for a negative number |
| QuestionLaws.EvidenceInOrder | src/modules/benchmarks/scale-corpus.ts:344-355 | expected, respectively forbidden, are the live records of the project that the grants open to the actor, respectively do not, each once and in the order of the records |
| Permissions.ReadIsGranted | src/modules/benchmarks/scale-database.ts:173-228 | `canRead` holds of an actor and a visibility if and only if some grant of that scope is for everyone, for the group the actor is in, or for the actor |
| Permissions.AnswersFollowGrants | src/modules/benchmarks/scale-corpus.ts:344-355 | on every reachable corpus a question expects exactly the live records of its project that the grants open to its actor, and forbids exactly the live ones they do not |
| Identities.PromotionIsFunctional | src/modules/benchmarks/scale-database.ts:561-628 | two resolved candidates with one source system, key type and external key name the same canonical resource, on every reachable corpus |
| Identities.PromotionIgnoresOrder | src/modules/benchmarks/scale-database.ts:604-628 | the last-write-wins promotion maps the same keys to the same resources in any record order |
| Updates.GenerateScaleUpdateBatch | src/modules/benchmarks/scale-corpus.ts:477-541 | refused exactly for a bad count or interval; otherwise the batch, its counters and the updated corpus are those of the specification |
| Updates.EvidenceIdsMembers | src/modules/benchmarks/scale-corpus.ts:520-533 | expected and forbidden ids are the live records of the project that the actor may, respectively may not, read |
| Updates.DeletionCountIsCeiling | src/modules/benchmarks/scale-corpus.ts:491-497 | a batch deletes its size over the interval, rounded up |
| UpdateLaws.BatchIs | src/modules/benchmarks/scale-corpus.ts:477-541 | a batch takes the first live records in order, deletes those whose number the interval divides, revises the others by one later version that continues the text and names the project, counts both, and leaves every other record of the corpus as it was |
| Transformers.FirstRecords | src/modules/benchmarks/scale-corpus.ts:384-389 | the map loop holds the first record of every project and nothing else |
| Transformers.AddVocabularyMismatchQuestions | src/modules/benchmarks/scale-corpus.ts:383-422 | succeeds exactly when every exact-name question has a worded project; a refusal names a question without one |
| Transformers.UpdateTouches | src/modules/benchmarks/scale-corpus.ts:491-519 | with distinct ids a batch keeps every record's place and changes only its deleted flag or appends one version |
| Transformers.VocabularyCommutesWithUpdate | src/modules/benchmarks/scale-corpus.ts:383-533 | adding vocabulary questions and updating commute: accepted together, and the same corpus in both orders |
| Transformers.VocabularyIsIdempotent | src/modules/benchmarks/scale-corpus.ts:390-421 | adding them twice is adding them once |
| Wordings.AddersPair | src/modules/benchmarks/scale-corpus.ts:398-416 | both adders pair each question they add with an exact-name one: same project, actor and answers, another identifier, one text for reading and searching |
| Wordings.VocabularyHidesNames | src/modules/benchmarks/scale-corpus.ts:362-377 | on every reachable corpus no vocabulary-mismatch question contains the name of its project |
| HumanQuestions.CollectProjectRecords | src/modules/benchmarks/human-question-benchmark.ts:48-59 | the loop collects, in record order, the first record of each exact-name project |
| HumanQuestions.FirstInIsFirst | src/modules/benchmarks/human-question-benchmark.ts:48-59 | that map has distinct keys and answers every wanted project with its first record |
| HumanQuestions.CreateAuthoringPacket | src/modules/benchmarks/human-question-benchmark.ts:61-87 | the template has the fixed instructions and one blank entry per exact-name project; refused exactly when a project has no scenario |
| HumanQuestions.TemplateSays | src/modules/benchmarks/human-question-benchmark.ts:61-87 | the template has exactly its five fields, and for each project with a record that an exact-name question is about, in the order of the records, an entry with exactly the project's key, client, scenario, word to avoid and an empty question, from the project's first record: no answers and no project name |
| Text.TrimIs | src/modules/benchmarks/human-question-benchmark.ts:142-146 | trimming cuts off the spaces at both ends of a text and nothing else |
| Text.LastWordIs | src/modules/benchmarks/human-question-benchmark.ts:153-157 | the avoided term is what follows the last space of the project's name |
| Text.ContainsWordIs | src/modules/benchmarks/human-question-benchmark.ts:158-160 | a query has the avoided word if and only if the word stands in it, in either case, with no letter, digit or underscore beside it |
| HumanQuestions.ValidateEntries | src/modules/benchmarks/human-question-benchmark.ts:125-160 | the entry loop reports nothing exactly when every entry is known, in range, term-free and unrepeated |
| HumanQuestions.ValidateAuthoringPacket | src/modules/benchmarks/human-question-benchmark.ts:93-168 | sound and complete: no error exactly for a valid header and entries that match the projects one to one with distinct, in-range, term-free queries |
| HumanQuestions.QueryIsDefined | src/modules/benchmarks/human-question-benchmark.ts:179-191 | in an accepted packet `queryByProject.get(..)!` is defined for an exact-name question if and only if its project has a record, and then it is the query of the only entry with that project |
| HumanQuestions.UndefinedExactly | src/modules/benchmarks/human-question-benchmark.ts:184-197 | with an accepted packet the question added for an exact-name question has the query `undefined` if and only if its project has no record |
| HumanQuestions.HumanQueriesDefined | src/modules/benchmarks/human-question-benchmark.ts:179-191 | no question of the resulting corpus has the query `undefined` exactly when every exact-name question is about a project with a record |
| HumanQuestions.QueryCanBeUndefined | src/modules/benchmarks/human-question-benchmark.ts:184-197 | a corpus and an accepted packet for which an undefined query is written |
| HumanQuestions.AddHumanAuthoredQuestions | src/modules/benchmarks/human-question-benchmark.ts:170-203 | for every corpus: succeeds exactly for an accepted packet and appends one reworded question per exact-name question |
| HumanLaws.HumanCommutesWithUpdate | src/modules/benchmarks/human-question-benchmark.ts:170-203 | a packet is accepted before an update exactly when after it, and both orders give the same corpus |
| HumanLaws.HumanIsIdempotent | src/modules/benchmarks/human-question-benchmark.ts:170-203 | a packet stays accepted after it was added, and adding it again changes nothing |
| HumanLaws.TemplateCompletes | src/modules/benchmarks/human-question-benchmark.ts:61-167 | the template completed with an author and queries validates exactly when the queries suit their projects |
| Validator.ValidateScaleCorpus | src/modules/benchmarks/scale-corpus.ts:543-577 | no error exactly for distinct ids, gapless versions, known duplicates, and known answers that are never both expected and forbidden |
| Lineage.GeneratedIsGrown | src/modules/benchmarks/scale-corpus.ts:238-360 | the generator establishes the corpus invariant |
| Lineage.UpdateKeepsGrown | src/modules/benchmarks/scale-corpus.ts:477-541 | update batches keep it: records descend from the generated ones and answers match the records |
| Lineage.AddedKeepsGrown | src/modules/benchmarks/scale-corpus.ts:390-421 | adding a reworded cohort keeps it |
| Lineage.VocabularyAlwaysFits | src/modules/benchmarks/scale-corpus.ts:362-397 | on such a corpus the vocabulary adder never refuses and every question's project has a record |
| Bodies.VersionsDiffer | src/modules/benchmarks/scale-corpus.ts:183-236 | no version of a reachable record repeats the content of another |
| CorpusRuns.EveryCorpusValidates | src/modules/benchmarks/scale-corpus.ts:238-577 | whatever accepted adders and updates follow the generator, in any order, the corpus validates |
| CorpusRuns.GrownIsStorable | src/modules/benchmarks/scale-corpus.ts:256-326 | records of a corpus reachable from the generator have distinct external identifiers, the versions of each have distinct hashes, and no two clients have names that normalise alike |
| CorpusRuns.SchemaAlwaysHolds | src/db/migrations/0000_foundation.sql:77-215 | along every run on such a corpus no foreign or unique key of the schema is violated, that of `entity_aliases` included, so loading and updating never fail |
| CorpusRuns.SourceVersionsStayUnique | src/modules/benchmarks/scale-database.ts:785-802 | no run ever stores two versions of one source object with the same content hash |
| Chunking.ChunkText | src/modules/search/chunking.ts:27-55 | the loop cuts the text at the boundaries of the specification |
| Chunking.ChunksAreWellCut | src/modules/search/chunking.ts:27-55 | every chunk is the slice its offsets name, at most two characters over the limit, and starts inside or right after the one before it, sharing at most the configured overlap |
| Chunking.ChunksCoverText | src/modules/search/chunking.ts:27-55 | stitching the chunks together gives the text back |
| Chunking.EveryCharacterIsInAChunk | src/modules/search/chunking.ts:42-54 | every character of a text is in some chunk |
| Chunking.ChunkEndIs | src/modules/search/chunking.ts:13-20 | a chunk ends after the last blank line in the upper part of its limit, else after the last full stop, else after the last space, else at the limit |
| Chunking.NextStartIs | src/modules/search/chunking.ts:22-25 | the next chunk starts after the first space of the overlap, or with the whole overlap if there is none |
| Chunking.LimitExceededExactly | src/modules/search/chunking.ts:13-20 | a chunk end lies past the limit if and only if the marker that decides it, a blank line, full stop or space in that order, matches at the limit or one before it |
| Chunking.ChunksExceedExactly | src/modules/search/chunking.ts:27-55 | for every chunk of every text: it is longer than `maxCharacters` exactly under that condition at its start |
| Statements.InsertBatches | src/modules/benchmarks/scale-database.ts:73-83 | the loop over 500-row slices runs the statement on each slice in turn and stops at the first that breaks a primary, foreign or unique key |
| Statements.SlicesPartition | src/modules/benchmarks/scale-database.ts:73-83 | the slices are the row list, cut exactly and without overlap |
| Statements.BatchingIsInvisible | src/modules/benchmarks/scale-database.ts:73-83 | for rows with pairwise distinct targets, slices that are each checked against the keys succeed exactly when one statement over all rows does, and leave the same table |
| ScaleRows.IngestRowsDisjoint | src/modules/benchmarks/scale-database.ts:263-648 | the row lists of the ingest have pairwise distinct targets |
| ScaleRows.BatchRowsDisjoint | src/modules/benchmarks/scale-database.ts:742-990 | so have the row lists of a batch with distinct records |
| ScaleSchema.MovesAreStored | src/modules/benchmarks/scale-database.ts:940-958 | the one statement that changes a unique key passes whatever its slices: a candidate always cites a version of its own record |
| ScaleSchema.IngestInSteps | src/modules/benchmarks/scale-database.ts:263-648 | the keys hold after a whole ingest if and only if they hold after each of its groups of statements |
| ScaleSchema.BatchInSteps | src/modules/benchmarks/scale-database.ts:742-990 | the same for a batch |
| ScaleDatabase.Database.IngestScaleCorpus | src/modules/benchmarks/scale-database.ts:241-661 | succeeds exactly when no primary key is taken and the result obeys every foreign and unique key; then every table is as specified, otherwise every table is rolled back |
| ScaleDatabase.Database.ApplyChanges | src/modules/benchmarks/scale-database.ts:742-783 | source objects, resources, documents and embeddings of the changed records are updated and deactivated |
| ScaleDatabase.Database.ApplyVersions | src/modules/benchmarks/scale-database.ts:785-840 | versions are appended, old ones stop being current, the current pointer moves; refused exactly when a key of these tables would not hold |
| ScaleDatabase.Database.ApplyClaims | src/modules/benchmarks/scale-database.ts:841-938 | open assertions are closed, new ones opened, their excerpts and chunks inserted; refused exactly when a key of these tables would not hold |
| ScaleDatabase.Database.ApplyIdentities | src/modules/benchmarks/scale-database.ts:940-990 | candidates, identity keys, cursors and sync runs move to the new versions; refused exactly when a key of these tables would not hold |
| ScaleDatabase.Database.ApplyScaleUpdateBatch | src/modules/benchmarks/scale-database.ts:663-1006 | succeeds exactly when the specified function of the old tables obeys the schema, and leaves that or the old tables |
| ScaleIngest.IngestTracks | src/modules/benchmarks/scale-database.ts:241-661 | a loaded corpus meets no taken primary key in an empty workspace and leaves exactly the rows its records describe |
| ScaleBatch.BatchTracks | src/modules/benchmarks/scale-database.ts:742-990 | any batch that deletes or extends described records leaves exactly the rows the stepped records describe |
| Citations.RecordsAreStored | src/modules/benchmarks/scale-database.ts:303-456 | in a described database every record is stored with its own values: source object, both resources, every version as source and as content, the pointer to the last one, both candidates |
| Citations.ClaimsAreTrue | src/modules/benchmarks/scale-database.ts:487-514 | every assertion has the stance, time and visibility of the source version it cites, about that version's object and the hypothesis of its project |
| Citations.ExcerptsAreTrue | src/modules/benchmarks/scale-database.ts:515-528 | every excerpt is the whole text of the version its assertion cites |
| Citations.DocumentsAreTrue | src/modules/benchmarks/scale-database.ts:529-559 | every search document contains the slice of the cited content version that its offsets name, that version's title, both canonical names and both references, and is active exactly while that version is current and the record live |
| Citations.CurrentTextIsSearchable | src/modules/benchmarks/scale-database.ts:529-559 | every character of a live record's current text lies in an active document of the record's current version |
| BatchEffects.IngestedKeyIsLast | src/modules/benchmarks/scale-database.ts:604-628 | an ingest stores a promoted key exactly for the references of unambiguous records, each leading to what the last such record calls so and citing its latest version |
| BatchEffects.KeysFollowRevisions | src/modules/benchmarks/scale-database.ts:702-715 | a batch makes a key cite the latest version of the last unambiguous revision with that reference, and leaves every other key and column as it was |
| BatchEffects.IngestStartsSources | src/modules/benchmarks/scale-database.ts:630-648 | an ingest leaves the five sources at the seed's cursor with one sync run each that has seen the records of its system |
| BatchEffects.BatchAdvancesSources | src/modules/benchmarks/scale-database.ts:716-733 | a batch moves each source to the cursor of its size and records a run that has seen the batch's records of the system |
| ScaleView.ViewIsDetermined | src/modules/benchmarks/scale-database.ts:742-958 | the current view depends only on the records, not on how the database got there |
| ScaleRuns.GeneratedBatchSteps | src/modules/benchmarks/scale-corpus.ts:491-519 | a generated batch deletes or extends live records, each at most once |
| ScaleRuns.RunTracks | src/modules/benchmarks/scale-database.ts:663-1006 | along any run of generated batches, replayed or not, the database stays described by its records |
| ScaleRuns.IncrementalEqualsRebuild | src/modules/benchmarks/scale-database.ts:241-1006 | after any run, the database has the view that ingesting the final corpus from scratch gives |
| Citations.TablesAreTrue | src/modules/benchmarks/scale-database.ts:241-1006 | after any run, replayed or not, all of this holds of the final corpus: records stored, clients and projects named by their last record, claims, excerpts and documents true, current texts searchable |
| ScaleRuns.IngestIsStorable | src/db/migrations/0000_foundation.sql:114-140 | an empty workspace takes a corpus if and only if external identifiers are distinct, so are the hashes of each record, and the clients' names normalise differently |
| ScaleRuns.BatchIsStorable | src/db/migrations/0000_foundation.sql:114-140 | a described database takes a generated batch if and only if that holds of the updated records |
| ScaleRuns.RunBenchmark | scripts/run-scale-benchmark.ts:57-67 | loading and applying batch after batch succeeds exactly when no batch is refused and the final records obey the unique keys; it then equals the rebuild and obeys the schema |
| ScaleReplay.ReplayIsIdempotent | src/modules/benchmarks/scale-database.ts:742-990 | from any state, applying a batch twice in a row is applying it once |
| ScaleReplay.ReplayAfterIndexing | src/modules/benchmarks/scale-database.ts:766-779 | with embeddings indexed in between, the replay differs only in retiring those of the changed records |
| ScaleReplay.BatchKeepsEmbeddingsCurrent | src/modules/benchmarks/scale-database.ts:766-779 | after any batch a current embedding belongs to an active document |
| ScaleTimeline.AssertionTimeline | src/modules/benchmarks/scale-database.ts:841-878 | assertions of a subject are disjoint, ordered and contiguous with one open claim, and name an existing relationship with their endpoints and predicate |
| ScaleConstraints.ForeignKeysAlwaysHold | src/db/migrations/0000_foundation.sql:77-215 | no foreign key of a described database dangles |
| ScaleConstraints.ChunksAlwaysUnique | src/db/migrations/0008_search_document_chunks.sql:15-17 | no two documents of a content version have the same chunk number |
| ScaleConstraints.VersionsAlwaysUnique | src/db/migrations/0000_foundation.sql:130-140 | records whose versions differ in content keep the pair of source object and hash unique |
| ScaleConstraints.SchemaHoldsExactly | src/db/migrations/0000_foundation.sql:77-215 | a described database obeys all foreign and unique keys if and only if its records have distinct external identifiers, each has distinct hashes, and no two clients have names that normalise alike |
| ScaleConstraints.AliasesUniqueExactly | src/db/migrations/0001_semantic_context.sql:18-28 | the unique key of `entity_aliases` holds if and only if no two entries of the client map, which keeps the last name of each id, have names that normalise alike |
| Refusals.RepeatedBodyIsRefused | src/db/migrations/0000_foundation.sql:130-140 | a corpus that validates and is refused because two versions of its record have one content hash |
| Refusals.RepeatedExternalIsRefused | src/db/migrations/0000_foundation.sql:114-128 | a corpus that validates and is refused because two records have one source and external identifier |
| Refusals.RepeatedAliasIsRefused | src/modules/benchmarks/scale-database.ts:363-377 | a corpus that validates and is refused because two client names differ in case only |
| ScaleIntegrity.IntegrityHolds | src/modules/benchmarks/scale-database.ts:1144-1185 | a described database inspects with no violation and with the counts of its records, those of multi-chunk resources and of resolved keys included |
| ScaleIntegrity.InspectionDetects | src/modules/benchmarks/scale-database.ts:1144-1185 | in any database each violation count is 0 exactly when there is no such violation, and the other figures count the rows of their tables |
| ScaleReachable.EveryRunKeepsIntegrity | src/modules/benchmarks/scale-database.ts:1144-1185 | all of this together for every run: timeline, open claims, foreign keys, chunk numbers, a clean inspection, and the exact condition for the schema |
| EntityNames.NameIsFreshWhenTitleIsKept | src/modules/benchmarks/scale-database.ts:353-358 | after a run an entity name is the rebuild's if and only if the normalised title is the same |
| EntityNames.NamesAfterRun | src/modules/benchmarks/scale-database.ts:268-358 | after any run on a generated corpus the names of clients, projects and hypotheses are the rebuild's, and that of an evidence resource is if and only if no batch revised its record |
| Retrieval.LexicalEvaluationIsSafe | src/db/migrations/0009_permissioned_lexical_search.sql:9-24 | evaluating a generated corpus on its database after any run: precision, recall and reciprocal rank lie in [0, 1], overall and per cohort, and nothing leaks |
| Retrieval.ChannelEvaluationIsSafe | src/db/migrations/0010_permissioned_hybrid_resource_search.sql:9-67 | the same for the lexical, semantic and hybrid channels |
| Retrieval.ExpectedCanBeFound | src/db/migrations/0009_permissioned_lexical_search.sql:9-24 | after any run every record that a question expects has an active document that the grants open to the question's actor |
| ScaleBenchmark.Prepare | scripts/run-scale-benchmark.ts:31-46 | the script's preparation succeeds exactly for options that the generator and the update accept; the question adder never throws and both validations find no error |
| ScaleBenchmark.RunScaleBenchmark | scripts/run-scale-benchmark.ts:31-76 | for all options: refused, or the database inspects clean and has the view of a rebuild from the updated corpus |
| ModelRouter.DayStaysWithinLimit | src/modules/model-routing/model-router.ts:25-93 | however many tasks a day has, routing never takes it over the token limit, covers the routed characters, and routes nothing that needs tokens once the limit is reached |
| ModelRouter.RouteMeans | src/modules/model-routing/model-router.ts:29-93 | exactly when no model is needed, when a task is routed, and to which route, model, provider and token estimate |
| ModelRouter.MoreRoomKeepsRoute | src/modules/model-routing/model-router.ts:54-93 | with at least the token and cost budget and at most the usage, a routed task keeps its decision |
| Monitor.EvaluateMonitorBenchmark | src/modules/benchmarks/hypothesis-monitor-benchmark.ts:10-105 | the report is the one specified, and the four status counts sum to the number of exact-name questions |
| Monitor.StatusMeans | src/modules/benchmarks/hypothesis-monitor-benchmark.ts:38-50 | a question's status says exactly which stances its visible, original evidence takes |
| Monitor.NoLeaks | src/modules/benchmarks/hypothesis-monitor-benchmark.ts:29-37 | no forbidden record is visible to the question's actor |
| Monitor.EveryChangeDetected | src/modules/benchmarks/hypothesis-monitor-benchmark.ts:13-20 | every record whose stance changed has a changed content hash |
| Monitor.KeysAreUnique | src/modules/benchmarks/hypothesis-monitor-benchmark.ts:54-57 | event keys never collide |
| Monitor.BenchmarkAlwaysPasses | src/modules/benchmarks/hypothesis-monitor-benchmark.ts:80-104 | the benchmark passes on every corpus reachable from the generator, with all five source systems listed, no leak, no external tokens and no cost |
| MonitorCounts.ReportCounts | src/modules/benchmarks/hypothesis-monitor-benchmark.ts:10-104 | on every corpus the report's figures count records, projects, systems, versions, stance changes expected and detected, duplicates, event keys and the forbidden records that a question shows; the statuses count the questions by the stances that their visible, original evidence takes; and the benchmark passes if and only if five systems occur, every stance change is detected, and no leak, collision, model or token occurs |
| MonitorCounts.KeysFollowVersions | src/modules/benchmarks/hypothesis-monitor-benchmark.ts:54-57 | an update gives a record a new event key if and only if it gives it a new version |
| RoundRobin.TakeInTurn | src/modules/benchmarks/semantic-benchmark.ts:79-92 | the loop terminates, takes the first rows of a full round robin up to the budget, and conserves all rows |
| RoundRobin.ListingRearranges | src/modules/benchmarks/semantic-benchmark.ts:79-92 | a full round robin is a rearrangement of the queues |
| RoundRobin.EveryPrefixIsFair | src/modules/benchmarks/semantic-benchmark.ts:79-92 | whatever is drawn is a prefix of every queue, and no queue is more than one row ahead of one with rows left |
| Sampler.Stratify | src/modules/benchmarks/semantic-benchmark.ts:68-78 | the loop puts each drawable row into its stratum, in row order |
| Sampler.StrataPartition | src/modules/benchmarks/semantic-benchmark.ts:68-78 | the strata hold every drawable row exactly once |
| Sampler.SelectSample | src/modules/benchmarks/semantic-benchmark.ts:40-113 | refused exactly without room for a document or for the required rows; otherwise the specified sample |
| Sampler.SampleIsSound | src/modules/benchmarks/semantic-benchmark.ts:45-113 | distinct documents of known records, all required ones, fairly drawn, within the cap, short of it only when every stratum is empty, and with counts by source system and visibility that add up |
| SampleFields.SameStratumMeans | src/modules/benchmarks/semantic-benchmark.ts:74-77 | two drawable rows are in one stratum if and only if their records have the same source system and visibility and agree on having more than 1600 characters |
| SampleFields.CountsAreOfRecords | src/modules/benchmarks/semantic-benchmark.ts:94-112 | the published counts are the numbers of documents whose record has the source system, has the visibility, or is long, and the query texts are those of the questions |
| SampleFields.RequiredAre | src/modules/benchmarks/semantic-benchmark.ts:58-66 | the sample begins with every row of a known record whose project some question asks about, in the order of the query, and the rest are distractors |
| SampleFields.DrawnEvenly | src/modules/benchmarks/semantic-benchmark.ts:79-92 | from each combination of source system, visibility and length the sample draws the first available rows, and at most one more than from another combination that still has rows |
| Ranking.PercentileIsRank | src/modules/benchmarks/semantic-benchmark.ts:27-30 | a percentile is one of the values and more than its rank of them are at most it |
| Ranking.FusionScoreInUnit | src/modules/search/reciprocal-rank-fusion.ts:3-17 | fused scores lie in [0, 1], and only a record leading both lists scores 1 |
| RetrievalFigures.FusionScoreIs | src/modules/search/reciprocal-rank-fusion.ts:3-17 | a record with ranks a and b scores (61/(60+a) + 61/(60+b))/2, and a missing rank contributes nothing |
| Ranking.HybridKeepsTheBest | src/modules/benchmarks/semantic-benchmark.ts:258-275 | the hybrid list has no repeats, at most `limit` records, and drops none that scores better than one it keeps |
| RetrievalFigures.HybridIsOrdered | src/modules/benchmarks/semantic-benchmark.ts:258-275 | the hybrid list is in the order of the scores, and in the locale's order where they are equal |
| RetrievalFigures.ChannelsAre | src/modules/benchmarks/semantic-benchmark.ts:251-275 | the lexical and the semantic list are the known records of their search's rows, row by row, and the hybrid list is the fusion of the two |
| Metrics.Accumulator.AddResult | src/modules/benchmarks/semantic-benchmark.ts:133-146 | an accumulator grows by exactly what the result list scores against the question |
| Metrics.EvaluateLexical | src/modules/benchmarks/scale-database.ts:1028-1100 | the evaluator of the lexical search counts every question once, with overall and cohort figures that agree |
| Metrics.EvaluateChannels | src/modules/benchmarks/semantic-benchmark.ts:227-297 | every question is counted once, and in every channel the overall figures are their sum and the cohort figures add up to them |
| Metrics.EveryQuestionOnce | src/modules/benchmarks/semantic-benchmark.ts:227-231 | going actor by actor visits every question exactly once |
| Metrics.SearchResultsAreDistinct | src/modules/benchmarks/semantic-benchmark.ts:251-275 | searches that return no resource twice give lists without repeats in all three channels |
| Metrics.CountIsIntersection | src/modules/benchmarks/semantic-benchmark.ts:138-143 | for a list without repeats the counted hits are the size of its intersection with the wanted records |
| Metrics.FirstIndexIsFirst | src/modules/benchmarks/scale-database.ts:1023-1026 | the reciprocal rank uses the first position of a wanted record, and is 0 only without one |
| RetrievalFigures.ReciprocalRankIs | src/modules/benchmarks/semantic-benchmark.ts:144-145 | the reciprocal rank times the number of the first wanted place is 1, and 0 without one |
| Metrics.PerfectSearchScoresOne | src/modules/benchmarks/semantic-benchmark.ts:133-161 | a search that returns exactly the expected records has precision, recall and reciprocal rank 1 and no leak |
| Metrics.LedgerMetrics | src/modules/benchmarks/scale-database.ts:1101-1142 | in every state of a ledger precision and mean reciprocal rank lie in [0, 1], overall and per cohort, and recall does for lists without repeats |
| RetrievalFigures.LedgerExplained | src/modules/benchmarks/semantic-benchmark.ts:148-161 | overall and per cohort: precision and recall are the parts of the shown places and of the wishes that hold an expected record, the mean rank is the mean over the questions, and the leaks are the places that hold a forbidden record |
| Metrics.RecallNeedsDistinctLists | src/modules/benchmarks/semantic-benchmark.ts:133-161 | recall is at most 1 against every question if and only if the list repeats no record |
| Metrics.ChannelMetricsInUnit | src/modules/benchmarks/semantic-benchmark.ts:148-161 | with searches that return every resource at most once, all figures of the three channels lie in [0, 1] |
| Reviewer.ValidateReviews | src/modules/benchmarks/hypothesis-quality-evaluation.ts:500-548 | the loop reports nothing exactly when every review is in order and no case is reviewed twice |
| Reviewer.ValidateScores | src/modules/benchmarks/hypothesis-quality-evaluation.ts:455-549 | no error exactly when the header is valid and the reviews are a bijection with the packet's cases, each in order |
| Aggregation.FindIsDefined | src/modules/benchmarks/hypothesis-quality-evaluation.ts:587-592 | `find(..)!` finds the one review of the case, with scores from 1 to 5 if there is a candidate |
| Aggregation.TallyCases | src/modules/benchmarks/hypothesis-quality-evaluation.ts:587-616 | the loops over cases and reviewers compute the specified sums |
| Aggregation.CountPairs | src/modules/benchmarks/hypothesis-quality-evaluation.ts:617-643 | the four nested loops count the compared and the agreeing score pairs |
| Aggregation.Aggregate | src/modules/benchmarks/hypothesis-quality-evaluation.ts:561-676 | succeeds exactly for at least two valid files by distinct people, with the specified report |
| AggregationBounds.TotalPairsClosed | src/modules/benchmarks/hypothesis-quality-evaluation.ts:617-643 | with n reviewers and k candidate cases, 6 k n (n - 1) / 2 score pairs are compared |
| AggregationBounds.UnanimousReviewersAgree | src/modules/benchmarks/hypothesis-quality-evaluation.ts:617-656 | reviewers with the same reviews reach agreement 1 |
| ReviewFigures.ScoreIsGiven | src/modules/benchmarks/hypothesis-quality-evaluation.ts:587-602 | the score that enters the figures is the number in the file's review of the case |
| ReviewFigures.AgreementMeans | src/modules/benchmarks/hypothesis-quality-evaluation.ts:617-656 | the agreement rate is the part of all compared score pairs that differ by at most one: 1 if and only if all do, 0 if and only if none does |
| ReviewFigures.FiguresExplained | src/modules/benchmarks/hypothesis-quality-evaluation.ts:587-676 | on valid files the flag rates are parts of the assessments with and without a candidate, each mean is the total of the scores over the assessments, the calibration error is the mean distance of confidence and grounding, and the gate holds exactly within its eight bounds, and only with a candidate |
| ReviewFigures.SamePersonIsRefused | src/modules/benchmarks/hypothesis-quality-evaluation.ts:568-573 | two files whose reviewers' names agree up to case and surrounding spaces are refused |
| AggregationBounds.AggregationIsBounded | src/modules/benchmarks/hypothesis-quality-evaluation.ts:561-676 | on valid files every lookup is defined, every rate lies in [0, 1], and means are defined and lie in [1, 5] exactly when there is a candidate |
| CasePacket.ValidateDocuments | src/modules/benchmarks/hypothesis-quality-evaluation.ts:411-443 | no error exactly for five unlabelled, substantive documents that cover the five source systems |
| CasePacket.EachSystemOnce | src/modules/benchmarks/hypothesis-quality-evaluation.ts:434-442 | such documents have every source system exactly once |
| CasePacket.BehaviorsCounted | src/modules/benchmarks/hypothesis-quality-evaluation.ts:358-384 | the counted controls and contested candidates are the cases with that expected behaviour |
| CasePacket.MinimumControls | src/modules/benchmarks/hypothesis-quality-evaluation.ts:445-451 | the demanded number of controls is at least 2 and at least a tenth of the cases, and no more than that needs |
| CasePacket.ValidateCasePacket | src/modules/benchmarks/hypothesis-quality-evaluation.ts:320-453 | sound and complete: no error exactly for a valid header, cases in order with distinct ids, and enough controls and contested cases |
| Migrations.ComparisonMeans | src/modules/operations/migration-manifest.ts:32-58 | pending, changed and unexpected mean missing from the ledger, recorded with another checksum, and missing from the manifest |
| Migrations.ComparisonCounts | src/modules/operations/migration-manifest.ts:32-58 | the verified count is the number of migrations recorded with their checksum, and a ledger is current exactly when it holds the same migrations as the manifest |
| Migrations.Migrate | scripts/migrate.ts:24-111 | a run refuses a ledger that does not fit, otherwise applies the pending migrations in manifest order up to the first failure, undoes that one, and releases the lock on every path |
| Migrations.MigratedIsCurrent | scripts/migrate.ts:41-72 | a run without a failure leaves a current ledger, so that the next run applies nothing |
| MigrationProtocol.StepKeeps | scripts/migrate.ts:33-72 | every step of any run keeps the invariant and never shrinks the ledger |
| MigrationProtocol.EveryInterleavingIsSafe | scripts/migrate.ts:33-111 | over all interleavings with failures and crashes: nothing is executed twice, the ledger is what was executed, the lock excludes, a run commits its pending migrations in order, and one that ended well left nothing pending |
| MigrationProtocol.EveryInterleavingEnds | scripts/migrate.ts:33-111 | in every reachable state all runs have ended or crashed or one can take its next step without a failure, and a run takes at most 5 n + 4 steps for n migrations |
| MigrationProtocol.EndsBadlyOnlyFor | scripts/migrate.ts:33-111 | a run ends badly exactly after a failure or a ledger that does not fit, and well only through its whole manifest |
| MigrationProtocol.LedgerIsPrefix | scripts/migrate.ts:33-72 | when all runs read one manifest, the ledger is always a prefix of it |

## Left out

- `confidence`, `authority`, clock columns and row timestamps: filled from row positions and `now()`, which the two write paths do differently by design.
- The workspace column, access grants, row-level security and `resetScaleBenchmarkWorkspace`: constant columns and plumbing.
- PostgreSQL itself and the ranking inside the `permissioned_*` searches: each statement is its effect on a map, and returned rows are inputs of which `Retrieval` uses what the `WHERE` and `DISTINCT ON` clauses promise.
- Two rows with the same target inside one statement: PostgreSQL leaves the winner open; the callers never produce them (`ScaleRows.IngestRowsDisjoint`, `ScaleRows.BatchRowsDisjoint`).
- `stableId` as truncated SHA-256: modelled as injective, so hash collisions are outside the model.
- Times are unbounded integers: after some 270,000 yearly updates of one record `toISOString` would fail.
- Text outside ASCII, and project names whose last word has characters special to regular expressions: `toLowerCase`, `trim` and `\b` are modelled on ASCII text.
- A human question, or a case identifier, whose whole text is itself an identifier made by `stableId`: such strings are a separate JSON constructor.
- Identifiers built from concatenated text are modelled by their parts; the separators they use do not occur in the parts.
- Replaying an older batch after a newer one: not promised by the code.
- Transformers.VocabularyCommutesWithUpdate: needs distinct record ids, as does HumanLaws.HumanCommutesWithUpdate, because a batch replaces records by id.
- Metrics.EvaluateChannels: latencies enter only as the values of a percentile, as in Metrics.EvaluateLexical.
- HumanQuestions.AddHumanAuthoredQuestions: a query that is `undefined` in the source is represented by that word.
- Sampler.SelectSample: the sorting of query texts is left out; `order` lists all strata in the locale's order, where the source sorts those that occur.
- ScaleDatabase.Database.ApplyIdentities: a unique key is checked when a statement ends; PostgreSQL checks it row by row, which comes to the same because every mixture of moved and unmoved candidates obeys the key (`ScaleSchema.MovedObey`).
- Check constraints, NOT NULL and the partial unique index on current embeddings: constant or generated columns, chunk offsets that are in order by `Chunking.ChunksAreWellCut`, and a provider and model the model does not have.
- Limits of PostgreSQL's values: NUL characters in text, the size of an index row, and the ranges of integers and timestamps.
- Migrations.Migrate: connecting, creating the ledger table and setting role passwords have no effect on the ledger; a script's own effects are represented by its place in the list of executed migrations.
- `evaluateHypothesisQualityMachineContract`, the generated quality cases and blind packets: counters over `discoverHypotheses`, which is not part of this model.
- `summarizeScaleCorpus`, `analyzeScaleBenchmarkTables`, report texts and file output: plumbing and counts, of which `Census.GeneratedCensus` has the ones a generated corpus fixes.
