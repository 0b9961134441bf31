# NHS organisation reference data import, modelled in Dafny

The scripts read the NHS organisation reference data file (HSCOrgRefData
XML). They stream it with `iterparse` and convert each `Organisation`
record into a nested dict with `process_element`. From the record's
`OrgId`, `Status`, `Roles` and `GeoLoc/Location` children they derive a
folder key. Each record is written as `{extension}.yaml`, and in the newer
snapshots also as `{extension}.json`. The newest snapshots also build a
summary of all organisations grouped by status and primary role and write
it as `summary.yaml` and `summary.json`.

The repository keeps nine snapshots of the script. Each is modelled in its
own module:

| module | file | snapshot |
|---|---|---|
| `ImportV1` | import_v1.dfy | import-v1.py: a single loop, one file per record directly in the output directory |
| `ImportV2` | import_v2.dfy | import-v2.py: one thread-pool task per record |
| `ImportV3` | import_v3.dfy | import-v3.py: batches of 100, each processed in place |
| `ImportV4` | import_v4.dfy | import-v4.py: files under `status/orgRecordClass` |
| `ImportV5` | import_v5.dfy | import-v5.py: files under `status/role_id`, role counters, exit on a missing `Roles` |
| `ImportV8` | import_v8.dfy | import-v8.py: batches of 1000 and a processed counter |
| `ImportV11` | import_v11.dfy | import-v11.py: a producer thread, an unbounded queue, buffered YAML and JSON writes |
| `ImportV12` | import_v12.dfy | import-v12.py: adds Ctrl+C handling, location metadata and summary files |
| `ImportData` | importdata.dfy | importdata.py: bounded queue of ten, asyncio writers, retrying puts |

Modules shared by the snapshots:

- `Wrappers`: `Option`, `Result` and sequence lemmas.
- `OrderedDict`: Python dicts as sequences of pairs in insertion order.
- `PyText`: `strip`, `split('}')[-1]`, `str.replace` and `os.path.join` on `seq<char>`.
- `Xml`: lxml elements, `find`, `findall`, `findtext` and `attrib.get`.
- `Convert`: `process_element`, with and without the `Roles.Role` fix.
- `Classify`: `OrgId`/`Status`/`Roles` lookups, the primary role, the role counters and the metadata dict.
- `Tasks`: the batch buffer that the pool tasks fill, and the first failure of a batch.
- `Output`: the files written from a buffer, and the copy of the buffer under JSON folder names.
- `Summary`: summary entries, the summary dict, grouping and the summary files.
- `Batching`: the record stream, batches with cumulative counts, and the queue.
- `Signals`: the SIGINT handler.

How the script's effects appear in the model:

- **Failures are values.** `sys.exit(1)` on a missing `Roles` becomes `MissingRoles`. A `TypeError` from `os.path.join(None, …)`, or from the `Roles` test of `process_element` in import-v12.py and importdata.py, becomes `TypeError`. An `AttributeError` from `.get` on a non-dict `Roles`, and a `KeyError`, have their own cases. Each driver treats them as its threading does:
  - import-v2.py waits on every future with `future.result()`, but its tasks cannot fail.
  - import-v3.py creates a pool it never submits to, and processes each record in the main loop itself.
  - import-v4.py, import-v5.py and import-v8.py drop their futures without reading them, so a failing task is swallowed.
  - import-v11.py and import-v12.py re-raise the first failure in the main thread.
  - In importdata.py, a failure ends only the processing thread (see "Readings of the source").
- **Threads run one after another.** Tasks run in submission order. The producer and consumer run on one fixed schedule: in import-v11.py and import-v12.py the producer puts everything before the consumer starts, and in importdata.py the consumer takes one item whenever the queue of ten is full (see "Left out").
- **Files are pairs.** A written file is a `(path, content)` pair, and a run returns them in the order it writes them.
- **Ctrl+C is a parameter.** A press is given as the event index (`stopAt`) at which the producer first sees the stop flag.

## Model

| member | source | states |
|---|---|---|
| Convert.AttrFields | importdata.py:80-82 | each attribute becomes a string entry under its own name, in document order |
| Convert.AddChildKeys | importdata.py:86-91 | storing a child adds its tag as the last key unless already present, and keeps keys distinct |
| Convert.AddChildGet | importdata.py:86-91 | a new tag maps to the child; a repeated tag turns the entry into a list, or extends it; other keys are unchanged |
| Convert.ElementValue | importdata.py:78-100 | the value of `process_element` is always a string or a dict |
| Convert.NormaliseRoles | importdata.py:95-98 | the `Roles.Role` fix keeps a dict a dict and leaves a string alone |
| Convert.NormaliseRolesSpec | importdata.py:95-98 | the fix changes only `Roles.Role`: every key keeps its place, a single `Role` dict becomes a one-element list, and no single `Role` dict remains |
| Convert.StoreAttribute | importdata.py:81-82 | storing the next attribute appends it, since attribute names are distinct |
| Convert.ProcessElement | importdata.py:78-100 | the attribute loop, the child loop, the text rule and the `Roles` test compute exactly `ProcessResult`: the first raising child's `TypeError`, else the node's own test's `TypeError`, else `Ok` of `ElementValue` |
| Convert.ProcessResultSpec | importdata.py:78-100 | with the `Roles` test, the conversion fails exactly when the test raises somewhere in the tree, always with `TypeError`, and otherwise returns `ElementValue`; without it, it never fails |
| Convert.ChildRaises | importdata.py:83-85 | a child whose conversion raises makes its parent's conversion raise `TypeError` |
| Convert.RolesTextRaises | importdata.py:92-96 | a text-only child whose text contains `Roles` (say `<Name>Roles Ltd</Name>`) makes the parent's conversion raise `TypeError` under the `Roles` test, and not without it |
| Convert.RolesEntryRaises | importdata.py:96 | a dict's `Roles` string containing `Role`, or a `Roles` list holding the string `Role`, raises `TypeError`; a `Roles` dict never does |
| Convert.RawFieldsKeys | importdata.py:80-91 | the dict's keys are the attribute names, then each local child tag at its first appearance, with no key twice |
| Convert.RawFieldsEmpty | importdata.py:80-92 | the dict is empty exactly when the element has no attributes and no children |
| Convert.TextScalar | importdata.py:92-93 | the value is a string exactly when the element has no attributes, no children and non-blank text, and then it is the stripped text |
| Convert.BlankElement | importdata.py:92-93 | an element with nothing but whitespace becomes an empty dict |
| Convert.MapKeys | importdata.py:80-93 | any other element becomes a dict whose keys are the attribute names, then the distinct local child tags in order |
| Convert.ChildValuesShape | importdata.py:83-91 | no single occurrence of a tag is itself a list |
| Convert.AttrEntries | importdata.py:80-82 | a key comes from the attributes exactly when it is an attribute name, and it holds that attribute's string |
| Convert.StoreChildEntry | importdata.py:86-91 | storing one more child keeps every entry equal to its collapsed occurrences |
| Convert.OccurrencesStep | importdata.py:83-91 | the occurrences of a tag grow exactly when the next child's local tag is that tag |
| Convert.OccurrencesShape | importdata.py:83-91 | no occurrence is a list |
| Convert.RawFieldsEntries | importdata.py:83-91 | promotion drops nothing: a key is present exactly when something was stored under it, and holds the single occurrence or the list of all occurrences in order |
| Convert.Promotion | previous_versions/import-v1.py:23-43 | without the `Roles` fix, each key holds exactly the collapsed occurrences of that name |
| Convert.PromotionWithRoles | importdata.py:78-100 | with the fix, every key other than `Roles` holds its collapsed occurrences, and `Roles` never holds a single `Role` dict |
| PyText.StripLeadingSpec | importdata.py:92-93 | `lstrip` removes exactly the leading whitespace |
| PyText.StripTrailingSpec | importdata.py:92-93 | `rstrip` removes exactly the trailing whitespace |
| PyText.StripEmpty | importdata.py:92 | `strip()` is empty exactly when the text is all whitespace |
| PyText.StripMargins | importdata.py:93 | `strip()` is the slice left after cutting whitespace margins, and neither starts nor ends with whitespace |
| PyText.StripIdempotent | importdata.py:93 | stripping twice gives the same string as stripping once |
| PyText.LocalNameSpec | importdata.py:84 | `split('}')[-1]` is the suffix after the last `}` and contains no `}` |
| PyText.LocalNameOfPlainAndQualified | importdata.py:84 | a plain tag is kept, and a `{namespace}` prefix is removed whole |
| PyText.ReplaceAbsent | importdata.py:191 | `replace` leaves a string without the pattern unchanged |
| PyText.ReplaceLeading | importdata.py:191 | a leading occurrence is replaced, and the scan continues after it |
| PyText.PathJoinSpec | importdata.py:227-230 | `os.path.join` ends with its last part; an absolute part replaces what precedes it, and otherwise the result starts with the first part |
| PyText.PathJoinPlain | importdata.py:497-498 | joining plain components puts exactly one `/` between them |
| PyText.NestedPath | importdata.py:282-290 | a file three folders down ends with its name, and is `a/b/c/d` for plain parts |
| Xml.Attr | importdata.py:119-120 | `attrib.get` finds a value exactly when the attribute is present, and that value is the attribute's |
| Xml.FirstTagged | importdata.py:106-108 | the index found is that of the first child with the tag, and none is found when no child has it |
| Xml.Tagged | importdata.py:118 | every child `findall` returns has the tag, and every child with the tag is returned |
| Xml.FirstInAny | importdata.py:109 | `./GeoLoc/Location` is found exactly when some `GeoLoc` child has a `Location` child |
| Xml.FindChildSpec | importdata.py:133-134 | `find` returns the first child with the tag; `findtext` returns its text, or `""` when it has none, or the default when there is no such child |
| OrderedDict.GetOr | importdata.py:128 | `d.get(k, default)` is the entry when `k` is a key and the default otherwise |
| OrderedDict.PutSpec | importdata.py:220 | assignment keeps the key order (a new key goes last), sets the entry, leaves the others and keeps keys distinct |
| OrderedDict.PutGetOr | importdata.py:128 | `get` after an assignment sees the new value under its key and the old one elsewhere |
| OrderedDict.AppendAtSpec | importdata.py:150-152 | appending to the list under a key (made empty if missing) changes nothing else |
| OrderedDict.Dedup | importdata.py:86-91 | exactly the elements of the input, each once |
| OrderedDict.DedupOrder | importdata.py:86-91 | the kept elements are in order of first occurrence: an earlier one occurs in the input before every occurrence of a later one |
| OrderedDict.KeysDistinct | importdata.py:86-91 | a dict with distinct keys lists each key once |
| Classify.FirstFailureOfSpec | importdata.py:195-220 | the search for the first failure finds none exactly when every step succeeds |
| Classify.OrgIdEither | previous_versions/import-v1.py:62-64 | the namespaced `OrgId` is tried first, then the plain one, and nothing is found only when both are missing |
| Classify.FirstPrimary | importdata.py:118-121 | the position found is the first primary role, and none is found when no role is primary |
| Classify.SelectPrimaryRole | importdata.py:117-121 | the loop that breaks at the first primary role computes `PrimaryRoleId` |
| Classify.PrimaryRoleIdSpec | importdata.py:117-121 | `PrimaryRoleId` is the `id` (or `"Unknown"`) of the first `Role` whose `primaryRole` is exactly `"true"`, and `"Unknown"` when no role is primary |
| Classify.FirstPrimaryAt | importdata.py:118-121 | a primary role with no primary role before it is the one selected |
| Classify.CountRoleSpec | importdata.py:124-128 | `CountRole` moves exactly one counter by one (the no-primary count for `"Unknown"`, otherwise that role's count starting from zero), keeps the others and raises the total by one |
| Classify.SumPut | importdata.py:128 | replacing one count changes the sum of the counts by the difference |
| Classify.Defaults | importdata.py:130-134 | missing fields read as `"Unknown"`; a `Status` without `value` reads as `None`; a present location leaf without text reads as `""` |
| Classify.WithMetadataSpec | importdata.py:141-147 | `metadata` holds exactly what was attached, and every other key keeps its value |
| Classify.MetadataKeys | importdata.py:141-147 | the metadata keys are `org_id`, `status`, `role_id`, then `post_code`, `uprn`, each once |
| Classify.LocatedMetadataFields | importdata.py:141-147 | each metadata key maps to the value it was given; `status` is `null` when there is no status value |
| Classify.OrganisationIsMap | importdata.py:140-141 | a record with `Roles` converts to a dict, so metadata can be attached |
| Tasks.BatchBufferSpec | importdata.py:150-152 | the batch buffer has one key per distinct key of the batch's documents, each holding its documents in batch order |
| Tasks.EntryInFolder | importdata.py:150-152 | a record's document is among those of its key |
| Tasks.BufferedAt | importdata.py:150-152 | where a record's document sits in the buffer |
| Tasks.BatchFailureSpec | importdata.py:176-187 | a batch fails exactly when one of its tasks fails |
| Tasks.BatchFailureAt | importdata.py:187 | the failure a batch raises is that of its first failing task |
| Tasks.FirstStop | previous_versions/import-v11.py:175-182 | the consumer's stopping item is the first sentinel or failing batch, and every item before it is a batch that succeeds |
| Tasks.FirstStopBeyond | previous_versions/import-v11.py:175-182 | a succeeding batch at or before the stop lies strictly before it |
| Tasks.FirstStopAt | previous_versions/import-v11.py:175-182 | a sentinel or failing batch at or before the stop is the stop |
| Tasks.StopOfPublished | previous_versions/import-v11.py:175-182 | over published batches and the sentinel, the consumer stops at the first failing batch, and at the sentinel exactly when none fails |
| Tasks.PublishedPrefix | previous_versions/import-v11.py:175-182 | what the consumer takes before it stops is the first published batches, in order |
| Output.FolderWrites | importdata.py:229-231 | one file per entry of a folder, named `{file_name}{ext}` in that folder, in order |
| Output.WrittenSpec | importdata.py:226-238 | a write is made exactly when some step asks for it |
| Output.BufferWritesSpec | importdata.py:226-238 | one file per buffered document, each under its own name in its own folder |
| Output.WriteBuffer | importdata.py:226-238 | the nested write loops produce exactly `BufferWrites` |
| Output.JsonBufferSpec | importdata.py:190-192 | with distinct rewritten names, the JSON copy has one folder per YAML folder, in order, with the same entries |
| Output.JsonBufferWrites | importdata.py:233-238 | with distinct rewritten names, every document is also written under its folder's rewritten name |
| Output.CopyToJson | importdata.py:190-192 | the copy loop computes `JsonBuffer` |
| Output.RewriteFolder | importdata.py:191 | `yamlBase/rest` becomes `jsonBase/rest` when the YAML base does not occur in `rest` |
| Summary.MapIds | importdata.py:201 | the role id list has at most one id per role |
| Summary.RoleIdsOk | importdata.py:197-201 | a dict `Roles` whose `Role` is not `None` yields its role ids without raising |
| Summary.RoleIdsOfRoles | importdata.py:197 | the role ids depend on the `Roles` entry alone |
| Summary.EntryOfDocument | importdata.py:197-216 | the summary entry of a document built by `generate_organisation_yaml` carries the metadata values, the record's `Name` and its role ids |
| Summary.RoleIdsIgnoreNormalisation | importdata.py:197-199 | the `Roles` fix does not change the role ids the summary reads |
| Summary.UpsertSpec | importdata.py:219-220 | the last write for an `org_id` wins, other entries stay, and there is one entry per `org_id` |
| Summary.UpsertAllSpec | importdata.py:190-220 | after upserting a sequence, each `org_id` holds its last entry |
| Summary.UpsertAllAppend | importdata.py:190-220 | upserting two sequences one after the other equals upserting their concatenation |
| Summary.UpsertAllKeys | importdata.py:219-220 | the summary keys are the old keys plus every upserted `org_id`, each once |
| Summary.CollectFailureIsFirst | importdata.py:195-216 | the summary loop raises the first failure among the documents |
| Summary.CollectFails | importdata.py:195-216 | the summary loop fails exactly when some document has no entry |
| Summary.CollectLength | importdata.py:195-220 | a loop that does not fail upserts one entry per document |
| Summary.CollectAt | importdata.py:195-220 | a loop that does not fail upserts, at position `j`, the entry of document `j` |
| Summary.CollectAll | importdata.py:195-220 | a loop that does not fail upserts every document's entry, in order |
| Summary.CollectStable | importdata.py:195-220 | after the first failing document, later documents change nothing |
| Summary.CollectFailsAt | importdata.py:195-220 | a failing loop raises the first failing document's exception, after upserting every entry before it |
| Summary.CollectFolder | importdata.py:195-220 | the loop over one folder upserts each entry until the first failure |
| Summary.CollectBatch | importdata.py:190-220 | over the whole buffer, the summary gains the collected entries, the failure is the first one, and without a failure the JSON buffer is the rewritten copy |
| Summary.GroupSpec | importdata.py:262-275 | grouping is a partition: every entry's key is a group, each group holds exactly the entries with its key, and no key appears twice |
| Summary.KeyHasMembers | importdata.py:262-275 | every entry is in the group of its own key |
| Summary.EveryEntryGrouped | importdata.py:262-275 | the group of an entry's key is present and contains the entry |
| Summary.SummaryWritesOk | importdata.py:280-295 | when every group's status and role id are strings, there are exactly two summary files per group |
| Summary.SummaryWritesAt | importdata.py:280-295 | group `i` gives its YAML and then its JSON summary, under its status and role id, holding its entries |
| Summary.SummaryWritesStep | importdata.py:280-295 | the files of every group but the last, then the last group's two, unless a path cannot be joined |
| Summary.FirstUnwritable | importdata.py:282-283 | the first group whose status or role id is not a string, and every group before it is writable |
| Summary.SummaryWritesFailure | importdata.py:280-301 | `os.path.join` raises `TypeError` exactly when some group is unwritable; the groups before the first one are writable |
| Summary.GroupEntries | import-v12.py:220-233 | the grouping loop computes `Group` |
| Summary.WriteGroups | import-v12.py:236-255 | the writing loop writes both summaries of every group up to the first unwritable one, then raises `TypeError` |
| Summary.WriteSummaryFiles | import-v12.py:218-255 | `write_summary_files` writes the groups up to the first unwritable one, and succeeds exactly when every group is writable, having then written all of them |
| Summary.EmptySummary | importdata.py:257-259 | an empty summary writes no files |
| Batching.Records | importdata.py:400-402 | an element is one of the records exactly when some `end` event of an `Organisation` element (by the rule in force) carries it; there are at most as many records as events |
| Batching.RecordsStep | importdata.py:400-402 | one more event adds its element exactly when it is an `end` event of a record |
| Batching.ExactRecordsAreRecords | importdata.py:400 | a record by exact tag (importdata.py) is also one by tag suffix (`endswith`, the older snapshots) |
| Batching.PendingFlush | importdata.py:413-423 | a full batch is published and the next one starts empty with counts still cumulative |
| Batching.SizedSnoc | importdata.py:426-435 | full batches followed by a shorter final batch are correctly sized |
| Batching.StartOrdinal | importdata.py:464-465 | the logged start `max(org_count - len(batch) + 1, 1)` is the record's position in the stream, counting from one |
| Batching.NumberedSpec | previous_versions/import-v3.py:86-87 | each record is handed on once, in stream order, with the count at the end of its batch rather than its own ordinal |
| Batching.BatchesOfPublished | importdata.py:454-470 | the batches taken first are the batches published first |
| Batching.Channel.TryPut | importdata.py:417-422 | a timed `put` on a full queue fails and leaves the queue alone; otherwise the item goes last |
| Batching.Channel.Get | importdata.py:454 | `get` returns the oldest item |
| Batching.StopEvent | importdata.py:394-398 | the producer looks at the events before the first one at which the stop flag is set |
| Signals.SigintHandler.constructor | importdata.py:60 | no presses counted and the flag clear |
| Signals.SigintHandler.HandleSigint | importdata.py:63-72 | each SIGINT raises the count by one and leaves the stop flag set; the second press asks for exit status 1 |
| ImportV1.OrganisationFileSpec | previous_versions/import-v1.py:61-76 | a record is written exactly when its `OrgId` has a non-empty `extension`, as `{extension}.yaml` in the output directory, holding the converted record |
| ImportV1.RunFiles | previous_versions/import-v1.py:56-83 | the run's files are those of the records with an extension, and nothing else |
| ImportV1.WriteRecord | previous_versions/import-v1.py:61-76 | the loop body for one record writes `OrganisationFile` |
| ImportV1.Run | previous_versions/import-v1.py:56-85 | `org_count` ends as the number of records, and the files are those of the records that have one, in stream order |
| ImportV2.Submit | previous_versions/import-v2.py:86-89 | task `i` carries record `i` and ordinal `i + 1` |
| ImportV2.Complete | previous_versions/import-v2.py:92-93 | waiting for each task gives each record's file, in record order |
| ImportV2.Run | previous_versions/import-v2.py:47-93 | the records are counted and numbered, and the files are those import-v1.py writes for the same stream |
| ImportV3.ProcessBatch | previous_versions/import-v3.py:86-87 | every record of a batch is processed, in order, with the same count |
| ImportV3.Flush | previous_versions/import-v3.py:85-91 | processing a batch publishes it, keeping counts cumulative and files in order |
| ImportV3.Accept | previous_versions/import-v3.py:82-91 | one record joins the batch and is counted; a batch reaching `batch_size` is processed and emptied |
| ImportV3.ReadBatches | previous_versions/import-v3.py:81-91 | full batches are processed as they fill; the records after the last full batch are still waiting |
| ImportV3.Run | previous_versions/import-v3.py:81-98 | every record is processed exactly once, in stream order, with the count at the end of its batch; the files are those of import-v1.py |
| ImportV4.OrganisationFileSpec | previous_versions/import-v4.py:43-75 | nothing is written without an extension; with one, the pool task fails with `TypeError` exactly when `Status` has no `value`, and otherwise writes `base/status/orgRecordClass/{extension}.yaml` |
| ImportV4.WrittenFile | previous_versions/import-v4.py:55-70 | the file of a record with an extension and a status, and its path for plain parts |
| Output.TaskFilesWritten | previous_versions/import-v4.py:91-94 | when the pool's results are never read (import-v4.py, import-v5.py, import-v8.py), the files are exactly those of the tasks that succeeded with a write; a failing task adds nothing |
| ImportV4.ProcessOrganisation | previous_versions/import-v4.py:43-75 | `process_organisation` returns the file written or the exception it ends with |
| ImportV4.Run | previous_versions/import-v4.py:91-96 | the records are counted, and the files are those of the pool tasks that succeeded, in record order |
| ImportV5.CountAllTotal | previous_versions/import-v5.py:53-69 | the counters count every record with `Roles` exactly once, whether or not its write then fails |
| ImportV5.OrganisationFileSpec | previous_versions/import-v5.py:45-96 | a missing `Roles` exits; otherwise nothing is written without an extension, a missing `value` raises `TypeError`, and a written file is `base/status/role_id/{extension}.yaml` |
| ImportV5.RunStep | previous_versions/import-v5.py:112-115 | one more record moves the counters and the files by its own contribution only |
| ImportV5.WriteOrganisation | previous_versions/import-v5.py:71-91 | the write half of `process_organisation` computes `OrganisationFile` |
| ImportV5.Importer.ProcessOrganisation | previous_versions/import-v5.py:45-96 | the counters move once `Roles` is found, before the write that may fail; the file, if any, is appended |
| ImportV5.Importer.Run | previous_versions/import-v5.py:112-117 | every record is counted and handed to its task, in stream order, and how the pool task ends is ignored |
| ImportV8.ProcessedBound | previous_versions/import-v8.py:58-94 | the pool tasks that succeed never outnumber the records with `Roles`, which never outnumber the records; the first two are equal when no task raises `TypeError` |
| ImportV8.ConsistentStep | previous_versions/import-v8.py:50-94 | one more record keeps counters, files and processed count consistent with the records seen |
| ImportV8.Importer.ProcessOrganisation | previous_versions/import-v8.py:50-94 | as in import-v5.py, and the processed count rises exactly when the pool task does not fail |
| ImportV8.Importer.ProcessBatchElements | previous_versions/import-v8.py:134-138 | every record of the batch runs in order with the batch's count; the ordinal logged for index `j` is `org_count - len(batch) + j + 1` |
| ImportV8.Importer.Flush | previous_versions/import-v8.py:109-112 | handing a batch to `process_batch_elements` publishes it |
| ImportV8.Importer.Accept | previous_versions/import-v8.py:104-112 | one record joins the batch; a batch of exactly `batch_size` is processed and emptied |
| ImportV8.Importer.ReadBatches | previous_versions/import-v8.py:103-112 | full batches are processed as they fill; the rest waits in `batch` |
| ImportV8.Importer.ProcessBatch | previous_versions/import-v8.py:97-131 | every record is handed on once, in stream order, with the count at the end of its batch; the final partial batch is processed too |
| ImportV11.GeneratedSpec | previous_versions/import-v11.py:64-110 | a missing `Roles` exits; otherwise nothing is buffered without an extension, a missing `value` raises `TypeError`, and a buffered document is the record plus its `org_id`/`status`/`role_id` metadata |
| ImportV11.SameFailures | previous_versions/import-v11.py:72-103 | the pool task fails exactly as import-v5.py's does |
| ImportV11.BatchWritesSpec | previous_versions/import-v11.py:124-143 | each document of a successful batch is written as `{extension}.yaml` and, with distinct rewritten folders, as `{extension}.json` |
| ImportV11.JsonFolder | previous_versions/import-v11.py:126 | the JSON folder of `base/status/role_id` is `base_json/status/role_id` for plain parts |
| ImportV11.StopsAtFailingRecord | previous_versions/import-v11.py:175-182 | the consumer stops at the first batch holding a failing record, and takes the sentinel exactly when none fails |
| ImportV11.TalliedStep | previous_versions/import-v11.py:83-110 | one more task keeps the counters and the processed count in step with the records seen |
| ImportV11.BufferEntry | previous_versions/import-v11.py:90-106 | the rest of the pool task after the role is counted computes `Generated` |
| ImportV11.Importer.GenerateOrganisationYaml | previous_versions/import-v11.py:64-110 | the counters move once `Roles` is found, the buffer gains the document at the end of its folder, and the processed count rises exactly when the pool task succeeds |
| ImportV11.Importer.ProcessBatchElements | previous_versions/import-v11.py:113-145 | the first failure of the batch is raised and nothing is written; otherwise every buffered document is written as YAML and JSON |
| ImportV11.Importer.ProcessBatchesFromQueue | previous_versions/import-v11.py:172-189 | items are taken in FIFO order up to the first sentinel or failing batch; the files of the batches before it are written, and its failure is raised |
| ImportV11.Importer.Run | previous_versions/import-v11.py:197-208 | every record is in one published batch; the batches up to the first failing one are processed, and the files of those before it are written |
| ImportV11.Put | previous_versions/import-v11.py:159 | a `put` on the unbounded queue appends the item |
| ImportV11.Accept | previous_versions/import-v11.py:153-161 | one record joins the batch; a batch of exactly `batch_size` is put and emptied |
| ImportV11.PreloadBatches | previous_versions/import-v11.py:148-169 | the records are put in batches of `batch_size` carrying cumulative counts, then the remainder, then the sentinel |
| ImportV12.GeneratedSpec | import-v12.py:99-152 | as import-v11.py, with `post_code` and `uprn` added to the metadata, and a `TypeError` exactly when the conversion raises or `Status` has no `value` |
| ImportV12.FailuresOverV11 | import-v12.py:107-152 | the pool task fails as import-v11.py's does, except for the added `TypeError` of a conversion that raises |
| ImportV12.TalliedStep | import-v12.py:118-152 | one more task moves the counters when the record has `Roles`, and the processed count when the task does not fail |
| ImportV12.GeneratedEntry | import-v12.py:172-193 | a buffered document's summary entry carries its extension, `Name`, primary role, role ids, status and location |
| ImportV12.BatchFailedSpec | import-v12.py:160-197 | a batch raises nothing exactly when every task succeeds and every document has a summary entry |
| ImportV12.SummaryHasRecord | import-v12.py:167-197 | after a batch that raises nothing, each buffered document's entry is among those upserted |
| ImportV12.Taken | import-v12.py:289-290 | the consumer takes fewer items than up to its stopping item exactly when it sees the stop flag first |
| ImportV12.BufferEntry | import-v12.py:126-148 | the rest of the pool task after the role is counted computes `Generated` |
| ImportV12.Importer.GenerateOrganisationYaml | import-v12.py:99-152 | the counters move once `Roles` is found, the buffer gains the document, and the processed count rises exactly when the pool task succeeds |
| ImportV12.Importer.RunTasks | import-v12.py:160-164 | the pool tasks of a batch fill the batch buffer, and the first failure among them is returned |
| ImportV12.Importer.ProcessBatchElements | import-v12.py:155-215 | the first failure is raised; otherwise the summary gains each document's entry and every document is written as YAML and JSON |
| ImportV12.Importer.TakeBatch | import-v12.py:290-296 | one consumer round takes the next item and, for a batch, runs it; a sentinel or failure is the stopping item |
| ImportV12.Importer.ProcessBatchesFromQueue | import-v12.py:286-303 | while the flag is clear, items are taken in order up to the first sentinel or failing batch, and that failure is raised |
| ImportV12.Importer.Run | import-v12.py:306-330 | the read records are published in batches; the batches up to the first failing one or the consumer's stop are processed; the summary files are then written up to the first unwritable group, and a `TypeError` there replaces the failure |
| ImportV12.Importer.WriteSummary | import-v12.py:327-330 | the `finally` block writes the summary files, and a `TypeError` there replaces the pending failure |
| ImportV12.Importer.DrainBatches | import-v12.py:321 | the consumer's run over the published batches, with what it saw, collected and wrote |
| ImportV12.ConsumedOfPublished | import-v12.py:289-296 | over published batches, the consumer's stopping item is the first failing batch or the sentinel, and what it takes is the first batches |
| ImportV12.PreloadBatches | import-v12.py:258-283 | until the flag is seen, records go out in batches of `batch_size` with cumulative counts; the remainder only with the flag clear; the sentinel always |
| ImportData.Bases | importdata.py:497-498 | the YAML and JSON bases are `{output}/yaml` and `{output}/json`, and they differ |
| ImportData.GeneratedSpec | importdata.py:103-156 | the pool task exits exactly on a missing `Roles`, raises `TypeError` exactly when the conversion does, and fails for no other reason; nothing is buffered without an extension; a document is keyed `"{status}/{role_id}"` (`None` for a missing `value`) and carries the five metadata fields |
| ImportData.TalliedStep | importdata.py:124-156 | one more task keeps the tallies: the counters move by the record's primary role once it has `Roles`, and the processed count exactly when the task does not fail |
| ImportData.SuccessesBound | importdata.py:124-156 | the tasks that succeed are at most the records with `Roles`, and exactly as many when no conversion raises |
| ImportData.TalliesAgree | importdata.py:124-156 | `org_processed_count` is at most the sum of the role counters, and equals it exactly when no record's conversion raised |
| ImportData.BufferEntry | importdata.py:130-152 | the rest of the pool task after the role is counted computes `Generated` |
| ImportData.GeneratedEntry | importdata.py:197-216 | a buffered document's summary entry, and its group key has a `None` status exactly when `Status` has no `value` |
| ImportData.GeneratedFails | importdata.py:103-156 | a task fails exactly when the record has no `Roles` (with that exit) or its conversion raises (with `TypeError`) |
| ImportData.BatchFailedSpec | importdata.py:176-220 | a batch raises nothing exactly when every record has `Roles` and a conversion that does not raise, and every document has a summary entry; a failing task's exception is the missing-`Roles` exit or `TypeError` |
| ImportData.FirstFailure | importdata.py:176-187 | the failure a batch's tasks raise is that of its first failing record: the missing-`Roles` exit, or else the conversion's `TypeError` |
| ImportData.SummaryHasRecord | importdata.py:190-220 | after a batch that raises nothing, each buffered document's entry is among those upserted |
| ImportData.BatchWritesSpec | importdata.py:226-238 | each document of a successful batch is written under `{yaml base}/{key}`, and under `{json base}/{key}` when the YAML base occurs in no key |
| ImportData.TakeStep | importdata.py:451-470 | taking one more item keeps the consumer's history orderly, and a batch that raises writes nothing |
| ImportData.RunningHasItems | importdata.py:451-461 | a running consumer always has an item waiting |
| ImportData.ConsumedPrefix | importdata.py:451-470 | a consumer that took part of the published batches took the first ones and has not finished |
| ImportData.ConsumedAll | importdata.py:451-470 | a consumer that took every batch and the sentinel finished, and no batch raised |
| ImportData.NoStatusFailsSummary | importdata.py:280-301 | one record with no `Status` value, not overwritten later, makes `write_summary_files` raise `TypeError` before any summary file is written |
| ImportData.ConsumerStopped | importdata.py:451-470 | once the sentinel is published, a stopped consumer either took everything with every batch succeeding, or died at the batch it took last |
| ImportData.ConsumerEnd | importdata.py:451-470 | the consumer finishes exactly when no batch fails, and then it has seen every record of the file |
| ImportData.ZeroBatchSize | importdata.py:413-435 | with `batch_size` 0, every record goes out in the one final batch |
| ImportData.FlushDone | importdata.py:426-435 | a final batch that is put is published after the full ones |
| ImportData.FlushGivenUp | importdata.py:428-435 | a final put that gives up drops the batch and publishes nothing more |
| ImportData.RunConsumed | importdata.py:513-541 | the producer's and consumer's end states combine into what the consumer has done when `main` ends |
| ImportData.Importer.constructor | importdata.py:497-498 | the script starts with empty counters, summary and files, under the two bases |
| ImportData.Importer.GenerateOrganisationYaml | importdata.py:103-156 | the counters move once `Roles` is found, the buffer gains the document at the end of its key, and `org_processed_count` rises exactly when the pool task succeeds |
| ImportData.Importer.RunTasks | importdata.py:176-187 | the pool tasks of a batch fill the batch buffer, and the first failure among them is returned |
| ImportData.Importer.ProcessBatchElements | importdata.py:168-251 | the first failure is raised; the summary gains the entries collected before any failure; without a failure every document is written as YAML and JSON |
| ImportData.Importer.ConsumeOne | importdata.py:451-470 | one round takes the next item: the sentinel finishes the consumer, and a batch that raises ends its thread |
| ImportData.Importer.PutItem | importdata.py:415-422 | a `put` with retries: a running consumer makes room; with none, the producer gives up on the stop flag or waits forever |
| ImportData.Importer.Accept | importdata.py:400-423 | one record joins the batch; a batch of `batch_size` is put with retries and emptied |
| ImportData.Importer.Examine | importdata.py:394-403 | one event: a record is accepted and anything else skipped |
| ImportData.Importer.PreloadRecords | importdata.py:394-423 | until the flag is seen or a put gives up, records go out in batches of `batch_size` |
| ImportData.Importer.PutRemainder | importdata.py:426-435 | the final partial batch is put with retries, or dropped when the put gives up |
| ImportData.Importer.PreloadBatches | importdata.py:385-440 | the batches, then the remainder and the sentinel when the flag is still clear; the sentinel's `put` has no timeout |
| ImportData.Importer.Drain | importdata.py:451-470 | after the sentinel, the consumer takes items until it finishes or dies |
| ImportData.Importer.WriteSummary | importdata.py:254-305 | the summary files are written all or nothing: every group's file, or none when a group is unwritable |
| ImportData.Importer.Run | importdata.py:487-541 | records go out in full batches with cumulative counts; the consumer takes a prefix, finishing exactly when no batch fails; when processing is enabled, the summary is written and a `TypeError` there gives exit status 1, and otherwise the run exits 0 or hangs |
| ImportData.Importer.Conclude | importdata.py:530-541 | the rest of `main`: drain the queue unless stopped, then write the summary when processing is enabled |

## Left out

- ImportData.Importer.RunTasks: the thread pool runs tasks one after another in batch order. The source gathers them in completion order (importdata.py:176-187), so the buffer order, the first failure raised and the summary upsert order are left open there but fixed in the model.
- ImportV11.Importer.ProcessBatchElements: the same applies to `as_completed` (previous_versions/import-v11.py:118-122) and to import-v12.py:160-164.
- The unlocked updates of `org_processed_count` and the role counters from several threads (importdata.py:124-128, 156) are not modelled as races: each update is one atomic step.
- ImportData.Importer.Run: the producer and consumer follow one fixed schedule. The consumer takes one item each time the producer finds the queue full, and drains the queue after the sentinel. Queue timeouts and sleeps are not modelled, and neither are interleavings where the consumer runs ahead.
- ImportV12.Importer.Run: the producer sees the stop flag before event `stopAt` and the consumer before item `consumerStop`. The two are independent parameters; the single flag that ties them in the program is not modelled.
- lxml's `recover=True` parsing, comments and processing instructions as children, `element.clear()`, and the sibling deletion of import-v3.py (previous_versions/import-v3.py:89-90) are not modelled. The records are given as a sequence of parse events.
- Files are `(path, content)` pairs. `os.makedirs`, file encoding, and YAML and JSON formatting are not modelled.
- Logging, timing and rates, `psutil` resource monitoring (`monitor_resources`) and command-line parsing are left out.
- Signals.SigintHandler.HandleSigint: Ctrl+C is modelled on its own. The runs take the moment of the first press as the `stopAt` parameter. No run produces the exit status 1 that a second press requests.
- ImportData.Importer.PreloadBatches: the `except` handler of `preload_batches` (importdata.py:442-444) is not modelled, because no modelled step of the producer raises.
- ImportData.Importer.Run: the `except` handler of `main` (importdata.py:543-549) is modelled only as the exit status 1 after a failing summary write. The monitoring-thread join it also performs is not modelled.
- The context tests disagree with the code in places: tests.py:86-89 expects a nested `batch_yaml_data["Active"]["RO126"]`, where the code builds a flat `"status/role_id"` key (importdata.py:149). test_importdata.py calls the coroutines `process_batch_elements`, `write_summary_files`, `process_batches_from_queue` and `main` without awaiting them (test_importdata.py:157, 190, 273, 303). It also expects two `put` calls where the sentinel makes a third (test_importdata.py:256). The model follows the code.
- ImportData.Importer.Run: the batch size is a `nat`. A negative `int(sys.argv[3])` (importdata.py:589) is not modelled. A batch size of 0 is handled (ZeroBatchSize). The other snapshots fix their batch sizes at 100, 1000, 1000 and 5000, and their models require a positive one.

## Readings of the source

These are behaviours of the code as written that differ from what its log
messages suggest. Nothing was executed. In each case the model states the
behaviour as written and claims no corrected version.

- A record without `Roles` logs "Stopping script." and calls `sys.exit(1)` (importdata.py:112-114). In importdata.py this runs in an executor thread inside `asyncio.run` on the processing thread, so the `SystemExit` ends only the processing thread. `main` then writes the summary and exits with status 0, or the producer waits forever on a full queue. The script never exits 1 for this reason. `ImportData.Importer.Run` states exactly this: a consumer that died leaves the producer hung once the queue is full (`Consumed`), and otherwise the exit status depends only on the summary writes.
- A record whose `Status` has no `value` gets status `None` in its summary entry. `write_summary_files` calls `os.path.join` with it (importdata.py:282) before any write is gathered (importdata.py:301), so not one summary file is written (`ImportData.NoStatusFailsSummary`, `ImportData.Importer.WriteSummary`).
- The sentinel `batch_queue.put(None)` (importdata.py:440) has no timeout and no stop-flag check. Once the consumer is dead and the queue is full, it waits forever (`ImportData.Importer.PutItem` with `canStop` false, and `hung` in `ImportData.Importer.Run`).
- The `Roles` fix of `process_element` changes only a `Roles` dict. A `Roles` string or list is returned unchanged when the test does not raise. When `data` is a string, `"Roles" in data` is a substring test. When the `Roles` entry is a string, `"Role" in` it is a substring test; for a list, it is a membership test. The test raises `TypeError` (importdata.py:96, import-v12.py:92) on a string `data` containing `Roles`, on a string entry containing `Role`, and on a list entry holding the string `Role`. `Convert.RolesTestRaises` models these cases, and `Convert.ProcessResult` turns each into a `TypeError` of the whole conversion.
