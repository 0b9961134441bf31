/**
 * import-v12.py: the pipeline of import-v11.py with the `Roles.Role`
 * normalisation, a location-aware metadata dict, a global summary and a stop
 * flag. After the thread pool has run a batch, every buffered document is
 * projected to a summary entry and upserted into `summary_data_global`; the
 * `finally` block writes one YAML and one JSON summary per
 * `(status, primary_role_id)` group, whatever happened before.
 */
module ImportV12 {
  import opened Wrappers
  import opened PyText
  import opened Xml
  import opened Convert
  import opened Classify
  import opened Batching
  import opened Output
  import opened Tasks
  import opened Summary
  import OrderedDict
  import ImportV5
  import ImportV11

  /** `base_output_directory` */
  const BASE_OUTPUT_DIRECTORY: string := "output_yaml_files"

  /** `base_output_directory_json` */
  const BASE_OUTPUT_DIRECTORY_JSON: string := "output_json_files"

  /** `batch_size` */
  const BATCH_SIZE: nat := 5000

  /**
   * What `generate_organisation_yaml` buffers: import-v11.py's rules, with
   * the record converted under the `Roles.Role` normalisation and the
   * metadata extended by the location's `PostCode` and `UPRN`. The
   * conversion, whose `Roles` test may raise `TypeError`, comes before the
   * folder path is joined.
   */
  function Generated(org: Element, base: string): Result<Option<Entry>>
  {
    match FindChild(org, "Roles")
    case None => Fail(MissingRoles)
    case Some(roles) =>
      var extension := Extension(OrgIdPlain(org));
      if !Truthy(extension) then Ok(None)
      else match ProcessResult(org, true)
        case Fail(f) => Fail(f)
        case Ok(converted) =>
          match StatusValue(org)
          case None => Fail(TypeError)
          case Some(status) =>
            var roleId := PrimaryRoleId(roles);
            OrganisationIsMap(org, true);
            Ok(Some((PathJoin(PathJoin(base, status), roleId),
                     (extension.value, WithMetadata(converted,
                                                    LocatedMetadata(extension.value, Some(status), roleId,
                                                                    LocationField(org, "PostCode"), LocationField(org, "UPRN")))))))
  }

  /**
   * A record without `Roles` exits; otherwise nothing is buffered without an
   * extension and a `TypeError` arises exactly when the conversion's `Roles`
   * test raises or `Status` has no `value`.
   * A buffered document is the converted record plus a `metadata` dict with
   * exactly the keys `org_id`, `status`, `role_id`, `post_code` and `uprn`,
   * named after the extension and filed under `base/status/role_id`.
   */
  lemma GeneratedSpec(org: Element, base: string)
    ensures Generated(org, base) == Fail(MissingRoles) <==> FindChild(org, "Roles").None?
    ensures FindChild(org, "Roles").Some? && Truthy(Extension(OrgIdPlain(org))) ==>
              (Generated(org, base) == Fail(TypeError) <==>
                 RaisesIn(org) || (FindChild(org, "Status").Some? && Attr(FindChild(org, "Status").value, "value").None?))
    ensures FindChild(org, "Roles").Some? && !Truthy(Extension(OrgIdPlain(org))) ==> Generated(org, base) == Ok(None)
    ensures Generated(org, base).Ok? && Generated(org, base).value.Some? ==>
              var (folder, (name, doc)) := Generated(org, base).value.value;
              var extension := Extension(OrgIdPlain(org)).value;
              var status := StatusValue(org).value;
              var roleId := PrimaryRoleId(FindChild(org, "Roles").value);
              var md := LocatedMetadata(extension, Some(status), roleId, LocationField(org, "PostCode"), LocationField(org, "UPRN"));
              name == extension && doc.Map?
              && "metadata" in OrderedDict.Keys(doc.fields) && OrderedDict.Get(doc.fields, "metadata") == Map(md)
              && OrderedDict.Keys(md) == ["org_id", "status", "role_id", "post_code", "uprn"]
              && ElementValue(org, true).Map?
              && (forall k :: k != "metadata" && k in OrderedDict.Keys(ElementValue(org, true).fields) ==>
                    k in OrderedDict.Keys(doc.fields)
                    && OrderedDict.Get(doc.fields, k) == OrderedDict.Get(ElementValue(org, true).fields, k))
              && (PlainComponent(base) && PlainComponent(status) && roleId != [] && roleId[0] != '/' ==>
                    folder == base + "/" + status + "/" + roleId)
  {
    if Generated(org, base).Ok? && Generated(org, base).value.Some? {
      var extension := Extension(OrgIdPlain(org)).value;
      var status := StatusValue(org).value;
      var roleId := PrimaryRoleId(FindChild(org, "Roles").value);
      var postCode, uprn := LocationField(org, "PostCode"), LocationField(org, "UPRN");
      OrganisationIsMap(org, true);
      WithMetadataSpec(ElementValue(org, true), LocatedMetadata(extension, Some(status), roleId, postCode, uprn));
      MetadataKeys(extension, Some(status), roleId, postCode, uprn);
      PathJoinSpec(base, status);
      if PlainComponent(base) && PlainComponent(status) && roleId != [] && roleId[0] != '/' {
        PathJoinPlain(base, status);
        PathJoinSpec(base + "/" + status, roleId);
      }
    }
  }

  /**
   * The pool task fails as import-v11.py's does, except that a conversion
   * whose `Roles` test raises adds a `TypeError` of its own.
   */
  lemma FailuresOverV11(org: Element, base: string)
    ensures FailureOf(Generated(org, base)) ==
              if ConversionRaises(org) then Some(TypeError) else FailureOf(ImportV11.Generated(org, base))
  {
  }

  /** The pool task the thread pool runs for each record of a batch. */
  function GenerateTask(base: string): Task
  {
    org => Generated(org, base)
  }

  /**
   * The summary entry of a buffered document whose `Roles` value is a dict
   * (so `.get` applies) and whose `Role`, if any, is not `None`: the
   * extension, the record's `Name`, the primary role, its role ids and the
   * metadata's status and location, the status and role id both strings.
   */
  lemma GeneratedEntry(org: Element, base: string)
    requires Generated(org, base).Ok? && Generated(org, base).value.Some?
    requires var v := ElementValue(org, true);
             v.Map?
             && ("Roles" in OrderedDict.Keys(v.fields) ==> OrderedDict.Get(v.fields, "Roles").Map?)
             && ("Roles" in OrderedDict.Keys(v.fields) ==>
                   var roles := OrderedDict.Get(v.fields, "Roles").fields;
                   "Role" in OrderedDict.Keys(roles) ==> !OrderedDict.Get(roles, "Role").Null?)
    ensures var doc := Generated(org, base).value.value.1.1;
            var v := ElementValue(org, true);
            var status := StatusValue(org).value;
            RoleIds(v.fields).Ok?
            && EntryOf(doc) == Ok(SummaryEntry(Str(Extension(OrgIdPlain(org)).value), Field(v.fields, "Name", Str(UNKNOWN)),
                                               Str(PrimaryRoleId(FindChild(org, "Roles").value)), RoleIds(v.fields).value,
                                               Str(status), Str(LocationField(org, "PostCode")), Str(LocationField(org, "UPRN"))))
            && GroupKey(EntryOf(doc).value).0.Str? && GroupKey(EntryOf(doc).value).1.Str?
  {
    var status := StatusValue(org).value;
    EntryOfDocument(ElementValue(org, true), Extension(OrgIdPlain(org)).value, Some(status),
                    PrimaryRoleId(FindChild(org, "Roles").value), LocationField(org, "PostCode"), LocationField(org, "UPRN"));
  }

  // ---------------------------------------------------------------------
  // One batch

  /**
   * The exception `process_batch_elements` raises: the first failing task's,
   * or else that of the first buffered document whose summary entry cannot
   * be built.
   */
  function BatchFailed(batch: seq<Element>, base: string): Option<Failure>
  {
    var f := BatchFailure(batch, GenerateTask(base));
    if f.Some? then f else CollectFailure(Documents(BatchBuffer(batch, GenerateTask(base))))
  }

  /**
   * The summary entries a batch upserts: none when a task fails, otherwise
   * those of its buffered documents up to the first one without an entry.
   */
  function BatchEntries(batch: seq<Element>, base: string): seq<SummaryEntry>
  {
    if BatchFailure(batch, GenerateTask(base)).Some? then []
    else Collected(Documents(BatchBuffer(batch, GenerateTask(base))))
  }

  /** A batch raises nothing exactly when every task succeeds and every buffered document has an entry. */
  lemma BatchFailedSpec(batch: seq<Element>, base: string)
    ensures var docs := Documents(BatchBuffer(batch, GenerateTask(base)));
            BatchFailed(batch, base).None? <==>
              (forall i :: 0 <= i < |batch| ==> Generated(batch[i], base).Ok?)
              && (forall j :: 0 <= j < |docs| ==> EntryOf(docs[j]).Ok?)
  {
    var task := GenerateTask(base);
    var docs := Documents(BatchBuffer(batch, task));
    BatchFailureSpec(batch, task);
    forall i | 0 <= i < |batch| ensures task(batch[i]).Ok? <==> Generated(batch[i], base).Ok? {
      TaskIsGenerated(batch[i], base);
    }
    CollectFails(docs);
    assert BatchFailure(batch, task).None? <==> forall i :: 0 <= i < |batch| ==> Generated(batch[i], base).Ok?;
    assert BatchFailed(batch, base).None? <==> BatchFailure(batch, task).None? && CollectFailure(docs).None?;
    assert CollectFailure(docs).None? <==> forall j :: 0 <= j < |docs| ==> EntryOf(docs[j]).Ok?;
    assert BatchFailed(batch, base).None? <==> (forall i :: 0 <= i < |batch| ==> Generated(batch[i], base).Ok?) && (forall j :: 0 <= j < |docs| ==> EntryOf(docs[j]).Ok?);
    assert docs == Documents(BatchBuffer(batch, GenerateTask(base)));
  }

  /** The pool task of a record is `generate_organisation_yaml` on it. */
  lemma TaskIsGenerated(org: Element, base: string)
    ensures GenerateTask(base)(org) == Generated(org, base)
  {
  }

  /**
   * After a batch that raises nothing, the summary entry of every document
   * it buffered is among the entries it upserted.
   */
  lemma SummaryHasRecord(batch: seq<Element>, base: string, i: nat)
    requires BatchFailed(batch, base).None?
    requires i < |batch| && Generated(batch[i], base).Ok? && Generated(batch[i], base).value.Some?
    ensures var doc := Generated(batch[i], base).value.value.1.1;
            EntryOf(doc).Ok? && EntryOf(doc).value in BatchEntries(batch, base)
  {
    var buf := BatchBuffer(batch, GenerateTask(base));
    var docs := Documents(buf);
    var doc := Generated(batch[i], base).value.value.1.1;
    var p, q := BufferedAt(batch, GenerateTask(base), i);
    DocumentsAt(buf, p, q);
    var j :| 0 <= j < |docs| && docs[j] == doc;
    CollectAll(docs);
  }

  // ---------------------------------------------------------------------
  // The consumer

  /** The batches the consumer stops at: those whose processing raises. */
  function BatchFails(base: string): Batch -> bool
  {
    (b: Batch) => BatchFailed(b.elements, base).Some?
  }

  lemma BatchFailsIs(base: string, b: Batch)
    ensures BatchFails(base)(b) <==> BatchFailed(b.elements, base).Some?
  {
  }

  /** The files of successive successful batches. */
  function BatchesWrites(bs: seq<Batch>, base: string, baseJson: string): seq<FileWrite>
  {
    if bs == [] then []
    else BatchesWrites(bs[..|bs| - 1], base, baseJson) + ImportV11.BatchWrites(BatchBuffer(bs[|bs| - 1].elements, GenerateTask(base)), base, baseJson)
  }

  lemma BatchesWritesSnoc(bs: seq<Batch>, b: Batch, base: string, baseJson: string)
    ensures BatchesWrites(bs + [b], base, baseJson)
            == BatchesWrites(bs, base, baseJson) + ImportV11.BatchWrites(BatchBuffer(b.elements, GenerateTask(base)), base, baseJson)
  {
    assert (bs + [b])[..|bs|] == bs;
  }

  /** The summary entries of successive batches. */
  function BatchesEntries(bs: seq<Batch>, base: string): seq<SummaryEntry>
  {
    if bs == [] then [] else BatchesEntries(bs[..|bs| - 1], base) + BatchEntries(bs[|bs| - 1].elements, base)
  }

  lemma BatchesEntriesSnoc(bs: seq<Batch>, b: Batch, base: string)
    ensures BatchesEntries(bs + [b], base) == BatchesEntries(bs, base) + BatchEntries(b.elements, base)
  {
    assert (bs + [b])[..|bs|] == bs;
  }

  /**
   * How many queue items the consumer takes when its first stopping item is
   * at `k` and it sees the stop flag before taking item `consumerStop`.
   */
  function Taken(k: nat, consumerStop: Option<nat>): (c: nat)
    ensures c <= k + 1
    ensures c <= k <==> consumerStop.Some? && consumerStop.value <= k
  {
    if consumerStop.Some? && consumerStop.value <= k then consumerStop.value else k + 1
  }

  /** The role counters and `org_processed_count` of the records whose tasks have run. */
  ghost predicate Tallied(counts: RoleCounts, processed: nat, seen: seq<Element>, base: string)
  {
    counts == ImportV5.CountAll(RoleCounts([], 0), seen) && processed == Successes(seen, GenerateTask(base))
  }

  /**
   * One more task keeps the tallies: the counters move when the record has
   * `Roles`, `org_processed_count` when the task does not fail.
   */
  lemma TalliedStep(counts: RoleCounts, processed: nat, seen: seq<Element>, org: Element, base: string)
    requires Tallied(counts, processed, seen, base)
    ensures Tallied(ImportV5.CountOrganisation(counts, org),
                    processed + (if FailureOf(Generated(org, base)).None? then 1 else 0), seen + [org], base)
  {
    assert (seen + [org])[..|seen|] == seen;
    SuccessesSnoc(seen, org, GenerateTask(base));
  }

  /** The counters, the processed count and the summary of the records seen. */
  ghost predicate Consistent(counts: RoleCounts, processed: nat, summary: seq<(Value, SummaryEntry)>,
                             seen: seq<Element>, collected: seq<SummaryEntry>, base: string)
  {
    Tallied(counts, processed, seen, base) && summary == UpsertAll([], collected)
  }

  /**
   * The rest of `generate_organisation_yaml` once the role is counted: the
   * location fields are read, and a record with an extension is converted,
   * given its metadata and filed under `base/{status}/{role_id}`, or ends in
   * a `TypeError` when its conversion raises or `Status` has no `value`.
   */
  method BufferEntry(org: Element, roleId: string, base: string) returns (r: Result<Option<Entry>>)
    requires FindChild(org, "Roles").Some? && roleId == PrimaryRoleId(FindChild(org, "Roles").value)
    ensures r == Generated(org, base)
  {
    var orgIdElement := FindChild(org, "OrgId");
    var statusElement := FindChild(org, "Status");
    var statusValue := if statusElement.Some? then Attr(statusElement.value, "value") else Some(UNKNOWN);
    var postCode := LocationField(org, "PostCode");
    var uprn := LocationField(org, "UPRN");
    r := Ok(None);
    if orgIdElement.Some? {
      var extension := Attr(orgIdElement.value, "extension");
      if extension.Some? && extension.value != "" {
        var converted := ProcessElement(org, true);
        if converted.Fail? {
          return Fail(converted.failure);
        }
        OrganisationIsMap(org, true);
        var organisationDict := WithMetadata(converted.value, LocatedMetadata(extension.value, statusValue, roleId, postCode, uprn));
        if statusValue.None? {
          return Fail(TypeError);
        }
        var folderPath := PathJoin(PathJoin(base, statusValue.value), roleId);
        r := Ok(Some((folderPath, (extension.value, organisationDict))));
      }
    }
  }

  /**
   * The script's globals: the role counters, `org_processed_count`, the
   * files written so far, `summary_data_global` and the two output bases;
   * `seen` is every record whose task has run and `collected` every summary
   * entry upserted, in order.
   */
  class Importer {
    var counts: RoleCounts
    var orgProcessedCount: nat
    var files: seq<FileWrite>
    var summary: seq<(Value, SummaryEntry)>
    const base: string
    const baseJson: string
    ghost var seen: seq<Element>
    ghost var collected: seq<SummaryEntry>

    /** The counters and the processed count are those of the records seen; the summary holds the entries collected. */
    ghost predicate Valid()
      reads this
    {
      Consistent(counts, orgProcessedCount, summary, seen, collected, base)
    }

    constructor(base: string, baseJson: string)
      ensures Valid() && seen == [] && collected == [] && files == [] && summary == []
      ensures this.base == base && this.baseJson == baseJson
      ensures counts == RoleCounts([], 0) && orgProcessedCount == 0
    {
      counts := RoleCounts([], 0);
      orgProcessedCount := 0;
      files := [];
      summary := [];
      this.base := base;
      this.baseJson := baseJson;
      seen := [];
      collected := [];
    }

    /**
     * `generate_organisation_yaml`: the counters move once `Roles` is found,
     * the buffer gains the record's document, if any, at the end of its
     * folder, and `org_processed_count` rises exactly when the pool task does not
     * fail.
     */
    method GenerateOrganisationYaml(org: Element, orgCount: int, buf: Buffer) returns (buf': Buffer, failure: Option<Failure>)
      requires Valid()
      modifies this
      ensures seen == old(seen) + [org] && collected == old(collected) && summary == old(summary)
      ensures counts == ImportV5.CountOrganisation(old(counts), org)
      ensures buf' == Buffered(buf, Generated(org, base))
      ensures failure == FailureOf(Generated(org, base))
      ensures orgProcessedCount == old(orgProcessedCount) + (if failure.None? then 1 else 0)
      ensures files == old(files)
      ensures Valid()
    {
      TalliedStep(counts, orgProcessedCount, seen, org, base);
      ghost var generated := Generated(org, base);
      var rolesElement := FindChild(org, "Roles");
      if rolesElement.None? {
        assert generated == Fail(MissingRoles);
        seen := seen + [org];
        return buf, Some(MissingRoles);
      }
      var roleId := SelectPrimaryRole(rolesElement.value);
      counts := CountRole(counts, roleId);
      var outcome := BufferEntry(org, roleId, base);
      assert generated == outcome;
      failure := FailureOf(outcome);
      buf' := buf;
      if outcome.Ok? && outcome.value.Some? {
        var (folderPath, item) := outcome.value.value;
        buf' := OrderedDict.AppendAt(buf, folderPath, item);
      }
      if outcome.Ok? {
        orgProcessedCount := orgProcessedCount + 1;
      }
      seen := seen + [org];
    }

    /** The pool tasks of one batch, run in batch order: the buffer they fill and the first failure among them. */
    method RunTasks(batch: seq<Element>, orgCount: nat) returns (batchYamlData: Buffer, failure: Option<Failure>)
      requires Valid()
      modifies this
      ensures seen == old(seen) + batch && files == old(files) && collected == old(collected) && summary == old(summary)
      ensures batchYamlData == BatchBuffer(batch, GenerateTask(base))
      ensures failure == BatchFailure(batch, GenerateTask(base))
      ensures Valid()
    {
      batchYamlData := [];
      failure := None;
      ghost var s0 := seen;
      for index := 0 to |batch|
        invariant seen == s0 + batch[..index] && files == old(files) && collected == old(collected) && summary == old(summary)
        invariant batchYamlData == BatchBuffer(batch[..index], GenerateTask(base))
        invariant failure == BatchFailure(batch[..index], GenerateTask(base))
        invariant Valid()
      {
        var elem := batch[index];
        TakeSnoc(batch, index);
        assert batch[..index + 1][..index] == batch[..index];
        var f;
        batchYamlData, f := GenerateOrganisationYaml(elem, orgCount - |batch| + index + 1, batchYamlData);
        if failure.None? {
          failure := f;
        }
        AppendAssoc(s0, batch[..index], [elem]);
      }
      assert batch[..|batch|] == batch;
    }

    /**
     * `process_batch_elements`: every task of the batch runs, in batch
     * order, and the first failure is raised; otherwise the buffer is copied
     * under JSON folder names while the summary entry of each document is
     * upserted, the first document without one raising; otherwise every
     * buffered document is written as YAML and then as JSON.
     */
    method ProcessBatchElements(batch: seq<Element>, orgCount: nat) returns (failure: Option<Failure>)
      requires Valid()
      modifies this
      ensures seen == old(seen) + batch
      ensures failure == BatchFailed(batch, base)
      ensures collected == old(collected) + BatchEntries(batch, base)
      ensures files == old(files) + (if failure.None? then ImportV11.BatchWrites(BatchBuffer(batch, GenerateTask(base)), base, baseJson) else [])
      ensures Valid()
    {
      var batchYamlData;
      ghost var c0 := collected;
      batchYamlData, failure := RunTasks(batch, orgCount);
      if failure.Some? {
        assert c0 + [] == c0;
        return;
      }
      ghost var docs := Documents(batchYamlData);
      var summary', batchJsonData, f := CollectBatch(summary, batchYamlData, base, baseJson);
      UpsertAllAppend([], collected, Collected(docs));
      summary := summary';
      collected := collected + Collected(docs);
      if f.Some? {
        return f;
      }
      var yamlWrites := WriteBuffer(batchYamlData, None, ".yaml");
      var jsonWrites := WriteBuffer(batchJsonData, None, ".json");
      files := files + (yamlWrites + jsonWrites);
    }

    /**
     * The consumer's state once it has taken `items[..i]` from a queue that
     * held `items`, after `t0`, and the pool tasks of their batches have run, the
     * files of the batches in `items[..j]` having been written.
     */
    ghost predicate TakenUpTo(queue: Channel, items: seq<Option<Batch>>, i: nat, j: nat, t0: seq<Option<Batch>>,
                              s0: seq<Element>, c0: seq<SummaryEntry>, f0: seq<FileWrite>)
      reads this, queue
    {
      j <= i <= |items| && queue.items == items[i..] && queue.taken == t0 + items[..i]
      && seen == s0 + Flatten(Batches(items[..i])) && collected == c0 + BatchesEntries(Batches(items[..i]), base)
      && files == f0 + BatchesWrites(Batches(items[..j]), base, baseJson)
    }

    /**
     * One round of the consumer: the next item is taken and, when it is a
     * batch, its tasks run and, unless one fails, its files are written.
     */
    method TakeBatch(queue: Channel, ghost items: seq<Option<Batch>>, ghost k: nat, ghost i: nat, ghost t0: seq<Option<Batch>>,
                     ghost s0: seq<Element>, ghost c0: seq<SummaryEntry>, ghost f0: seq<FileWrite>)
      returns (batchInfo: Option<Batch>, failure: Option<Failure>)
      requires Valid() && queue.Valid() && k == FirstStop(items, BatchFails(base)) && i <= k < |items|
      requires TakenUpTo(queue, items, i, i, t0, s0, c0, f0)
      modifies this, queue
      ensures Valid() && queue.Valid() && batchInfo == items[i] && queue.puts == old(queue.puts)
      ensures failure == (if batchInfo.None? then None else BatchFailed(batchInfo.value.elements, base))
      ensures batchInfo.Some? && failure.None? ==> TakenUpTo(queue, items, i + 1, i + 1, t0, s0, c0, f0)
      ensures batchInfo.None? || failure.Some? ==> TakenUpTo(queue, items, i + 1, i, t0, s0, c0, f0) && k == i
      ensures batchInfo.Some? && failure.None? ==> i < k
    {
      batchInfo := queue.Get();
      TakeSnoc(items, i);
      AppendAssoc(t0, items[..i], [items[i]]);
      ghost var done := Batches(items[..i]);
      if batchInfo.None? {
        assert Batches(items[..i + 1]) == done by {
          assert items[..i + 1][..i] == items[..i];
        }
        FirstStopAt(items, BatchFails(base), i);
        return batchInfo, None;
      }
      var b := batchInfo.value;
      BatchesSnoc(items[..i], b);
      FlattenSnoc(done, b);
      BatchesEntriesSnoc(done, b, base);
      BatchesWritesSnoc(done, b, base, baseJson);
      AppendAssoc(s0, Flatten(done), b.elements);
      AppendAssoc(c0, BatchesEntries(done, base), BatchEntries(b.elements, base));
      AppendAssoc(f0, BatchesWrites(done, base, baseJson),
                  ImportV11.BatchWrites(BatchBuffer(b.elements, GenerateTask(base)), base, baseJson));
      failure := ProcessBatchElements(b.elements, b.orgCount);
      BatchFailsIs(base, b);
      if failure.Some? {
        FirstStopAt(items, BatchFails(base), i);
      } else {
        FirstStopBeyond(items, BatchFails(base), i);
      }
    }

    /**
     * `process_batches_from_queue`: while the stop flag is clear, items are
     * taken in FIFO order and each batch is processed; the loop ends at the
     * first sentinel, after the first batch that raises (whose failure is
     * raised) or when it sees the flag, set before it takes item
     * `consumerStop`.
     */
    method ProcessBatchesFromQueue(queue: Channel, consumerStop: Option<nat>) returns (failure: Option<Failure>)
      requires Valid() && queue.Valid() && None in queue.items
      modifies this, queue
      ensures var items := old(queue.items);
              var k := FirstStop(items, BatchFails(base));
              var c := Taken(k, consumerStop);
              k < |items| && queue.puts == old(queue.puts)
              && failure == (if c <= k || items[k].None? then None else BatchFailed(items[k].value.elements, base))
              && TakenUpTo(queue, items, c, if c <= k then c else k, old(queue.taken), old(seen), old(collected), old(files))
      ensures Valid() && queue.Valid()
    {
      ghost var items := queue.items;
      ghost var t0 := queue.taken;
      ghost var s0 := seen;
      ghost var c0 := collected;
      ghost var f0 := files;
      ghost var k := FirstStop(items, BatchFails(base));
      assert k < |items| by {
        var n :| 0 <= n < |items| && items[n] == None;
      }
      assert TakenUpTo(queue, items, 0, 0, t0, s0, c0, f0) by {
        assert items[0..] == items && t0 + [] == t0 && s0 + [] == s0 && c0 + [] == c0 && f0 + [] == f0;
      }
      var i := 0;
      failure := None;
      while consumerStop.None? || i < consumerStop.value
        invariant i <= k && (consumerStop.Some? ==> i <= consumerStop.value) && queue.Valid() && Valid()
        invariant TakenUpTo(queue, items, i, i, t0, s0, c0, f0) && queue.puts == old(queue.puts)
        invariant failure.None?
        decreases |items| - i
      {
        var batchInfo;
        batchInfo, failure := TakeBatch(queue, items, k, i, t0, s0, c0, f0);
        if batchInfo.None? || failure.Some? {
          assert Taken(k, consumerStop) == i + 1;
          return;
        }
        i := i + 1;
      }
      assert Taken(k, consumerStop) == i;
    }

    /**
     * The script: the producer runs to its end (the queue is unbounded, so
     * it never waits), then the consumer drains the queue; the producer sees
     * the stop flag before event `stopAt` and the consumer before item
     * `consumerStop`. The batches processed are those up to the first one
     * that raises, or up to the consumer's stop; the files of every batch
     * before that one are written. The `finally` block then writes the
     * summary files of the groups up to the first unwritable one, and a
     * `TypeError` there replaces the consumer's failure.
     */
    method Run(events: seq<ParseEvent>, stopAt: Option<nat>, consumerStop: Option<nat>)
      returns (failure: Option<Failure>, ghost bs: seq<Batch>, ghost dropped: seq<Element>)
      requires Valid()
      modifies this
      ensures Flatten(bs) + dropped == Records(events[..StopEvent(stopAt, |events|)], false)
      ensures Sized(bs, BATCH_SIZE) && Counted(bs) && |dropped| < BATCH_SIZE
      ensures !StopSet(stopAt, |events|) ==> dropped == []
      ensures StopIndex(bs, base) <= |bs|
      ensures StopIndex(bs, base) == |bs| <==> forall b :: b in bs ==> BatchFailed(b.elements, base).None?
      ensures var k := StopIndex(bs, base);
              var consumed := Consumed(bs, k, Taken(k, consumerStop));
              seen == old(seen) + Flatten(consumed) && collected == old(collected) + BatchesEntries(consumed, base)
      ensures var k := StopIndex(bs, base);
              var c := Taken(k, consumerStop);
              var groups := Group(OrderedDict.Values(summary));
              var n := FirstUnwritable(groups);
              SummaryWrites(groups[..n], base, baseJson).Ok?
              && files == old(files) + BatchesWrites(bs[..if c <= k then c else k], base, baseJson)
                          + SummaryWrites(groups[..n], base, baseJson).value
              && failure == (if n < |groups| then Some(TypeError)
                             else if c <= k || k == |bs| then None
                             else BatchFailed(bs[k].elements, base))
      ensures Valid()
    {
      var queue := new Channel(0);
      bs, dropped := PreloadBatches(events, BATCH_SIZE, queue, stopAt);
      failure := DrainBatches(queue, bs, consumerStop);
      failure := WriteSummary(failure);
    }

    /** The `finally` block: the summary files are written, and a failure there replaces `failure`. */
    method WriteSummary(failure: Option<Failure>) returns (failure': Option<Failure>)
      requires Valid()
      modifies this
      ensures var groups := Group(OrderedDict.Values(summary));
              var n := FirstUnwritable(groups);
              SummaryWrites(groups[..n], base, baseJson).Ok?
              && files == old(files) + SummaryWrites(groups[..n], base, baseJson).value
              && failure' == (if n < |groups| then Some(TypeError) else failure)
      ensures summary == old(summary) && seen == old(seen) && collected == old(collected)
      ensures Valid()
    {
      var writes, summaryFailure := WriteSummaryFiles(summary, base, baseJson);
      files := files + writes;
      failure' := if summaryFailure.Some? then summaryFailure else failure;
    }

    /** The consumer's run over the queue the producer filled, stated in terms of the published batches. */
    method DrainBatches(queue: Channel, ghost bs: seq<Batch>, consumerStop: Option<nat>) returns (failure: Option<Failure>)
      requires Valid() && queue.Valid() && queue.items == Published(bs) + [None]
      modifies this, queue
      ensures StopIndex(bs, base) <= |bs|
      ensures var k := StopIndex(bs, base);
              var c := Taken(k, consumerStop);
              var consumed := Consumed(bs, k, c);
              seen == old(seen) + Flatten(consumed) && collected == old(collected) + BatchesEntries(consumed, base)
              && files == old(files) + BatchesWrites(bs[..if c <= k then c else k], base, baseJson)
              && failure == (if c <= k || k == |bs| then None else BatchFailed(bs[k].elements, base))
      ensures StopIndex(bs, base) == |bs| <==> forall b :: b in bs ==> BatchFailed(b.elements, base).None?
      ensures Valid()
    {
      ghost var items := Published(bs) + [None];
      assert items[|bs|] == None;
      ConsumedOfPublished(bs, base, consumerStop);
      failure := ProcessBatchesFromQueue(queue, consumerStop);
    }
  }

  /** The batches whose tasks have run: the first `c` when the consumer sees the flag first, else up to and including the one at `k`. */
  function Consumed(bs: seq<Batch>, k: nat, c: nat): seq<Batch>
    requires k <= |bs| && c <= k + 1
  {
    if c <= k then bs[..c] else Processed(bs, k)
  }

  /** What the consumer's contract says about the queue the producer fills, in terms of the batches. */
  lemma ConsumedOfPublished(bs: seq<Batch>, base: string, consumerStop: Option<nat>)
    ensures var items := Published(bs) + [None];
            var k := StopIndex(bs, base);
            var c := Taken(k, consumerStop);
            k <= |bs| && (k == |bs| <==> forall b :: b in bs ==> BatchFailed(b.elements, base).None?)
            && FirstStop(items, BatchFails(base)) == k
            && Batches(items[..c]) == Consumed(bs, k, c)
            && Batches(items[..if c <= k then c else k]) == bs[..if c <= k then c else k]
            && (items[k].None? <==> k == |bs|) && (k < |bs| ==> items[k] == Some(bs[k]))
  {
    var items := Published(bs) + [None];
    var k := StopIndex(bs, base);
    var c := Taken(k, consumerStop);
    StopOfPublished(bs, BatchFails(base));
    PublishedPrefix(bs, BatchFails(base));
    forall b | b in bs ensures BatchFails(base)(b) <==> BatchFailed(b.elements, base).Some? {
      BatchFailsIs(base, b);
    }
    assert (forall b :: b in bs ==> !BatchFails(base)(b)) <==> (forall b :: b in bs ==> BatchFailed(b.elements, base).None?);
    if c <= k {
      assert items[..c] == Published(bs)[..c];
      BatchesOfPublished(bs, c);
      assert Batches(items[..c]) == Consumed(bs, k, c);
    } else {
      assert c == k + 1 && Batches(items[..c]) == Processed(bs, k);
    }
  }

  /** Where the consumer stops on the published batches and the sentinel. */
  function StopIndex(bs: seq<Batch>, base: string): nat
  {
    FirstStop(Published(bs) + [None], BatchFails(base))
  }

  // ---------------------------------------------------------------------
  // The producer

  /**
   * `preload_batches`: until the stop flag is seen, the records are put on
   * the queue in batches of exactly `batch_size`, each with the count of
   * records read up to its end; the remainder is put only when the flag is
   * still clear after the loop, and one `None` is always put. `dropped` is
   * the remainder left unpublished.
   */
  method PreloadBatches(events: seq<ParseEvent>, batchSize: nat, queue: Channel, stopAt: Option<nat>)
    returns (ghost bs: seq<Batch>, ghost dropped: seq<Element>)
    requires batchSize > 0 && queue.Valid() && queue.capacity == 0
    modifies queue
    ensures Flatten(bs) + dropped == Records(events[..StopEvent(stopAt, |events|)], false)
    ensures Sized(bs, batchSize) && Counted(bs) && |dropped| < batchSize
    ensures !StopSet(stopAt, |events|) ==> dropped == []
    ensures queue.Valid() && queue.items == old(queue.items) + Published(bs) + [None]
    ensures queue.puts == old(queue.puts) + Published(bs) + [None] && queue.taken == old(queue.taken)
  {
    var batch := [];
    var orgCount := 0;
    bs := [];
    ghost var i0, p0, t0 := queue.items, queue.puts, queue.taken;
    var i := 0;
    while i < |events| && !StopSet(stopAt, i)
      invariant i <= StopEvent(stopAt, |events|)
      invariant Flatten(bs) + batch == Records(events[..i], false)
      invariant ImportV11.Preloading(queue, bs, batch, orgCount, batchSize, i0, p0, t0)
    {
      var event := events[i];
      var elem := event.element;
      RecordsStep(events, i, false);
      if event.kind == End && EndsWith(elem.tag, "Organisation") {
        orgCount, batch, bs := ImportV11.Accept(queue, elem, orgCount, batch, batchSize, bs, i0, p0, t0);
      }
      i := i + 1;
    }
    assert i == StopEvent(stopAt, |events|);
    dropped := [];
    if !StopSet(stopAt, i) && batch != [] {
      var b := Batch(batch, orgCount);
      ImportV11.Put(queue, Some(b));
      FlattenSnoc(bs, b);
      CountedSnoc(bs, b);
      SizedSnoc(bs, b, batchSize);
      PublishedSnoc(bs, b);
      AppendAssoc(i0, Published(bs), [Some(b)]);
      AppendAssoc(p0, Published(bs), [Some(b)]);
      bs := bs + [b];
    } else {
      dropped := batch;
      assert Sized(bs, batchSize);
    }
    ImportV11.Put(queue, None);
  }
}
