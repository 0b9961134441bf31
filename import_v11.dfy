/**
 * import-v11.py: a preloading thread cuts the records into batches of
 * `batch_size` and puts them on an unbounded queue, followed by one `None`;
 * the main thread takes them in order. Each batch is run on a thread pool
 * whose results are read, so the first failure of a batch ends the run once
 * the whole batch has run. A successful batch buffers every document under
 * `base/{status}/{role_id}`, copies the buffer under JSON folder names and
 * writes one YAML and one JSON file per document.
 */
module ImportV11 {
  import opened Wrappers
  import opened PyText
  import opened Xml
  import opened Convert
  import opened Classify
  import opened Batching
  import opened Output
  import opened Tasks
  import OrderedDict
  import ImportV5
  import ImportV8

  /** `base_output_directory` */
  const BASE_OUTPUT_DIRECTORY: string := "output_yaml_files"

  /** `base_output_directory_json` */
  const BASE_OUTPUT_DIRECTORY_JSON: string := "output_json_files"

  /** `batch_size` */
  const BATCH_SIZE: nat := 1000

  /**
   * What `generate_organisation_yaml` buffers: nothing without `Roles` (the
   * task exits), nothing without a plain `OrgId` extension, a `TypeError`
   * when `Status` has no `value`, and otherwise the converted record with its
   * metadata under `base/status/role_id`.
   */
  function Generated(org: Element, base: string): Result<Option<Entry>>
  {
    match FindChild(org, "Roles")
    case None => Fail(MissingRoles)
    case Some(roles) =>
      var extension := Extension(OrgIdPlain(org));
      if !Truthy(extension) then Ok(None)
      else match StatusValue(org)
        case None => Fail(TypeError)
        case Some(status) =>
          var roleId := PrimaryRoleId(roles);
          OrganisationIsMap(org, false);
          Ok(Some((PathJoin(PathJoin(base, status), roleId),
                   (extension.value, WithMetadata(ElementValue(org, false), BasicMetadata(extension.value, Some(status), roleId))))))
  }

  /**
   * A record without `Roles` exits; otherwise nothing is buffered without an
   * extension and a `TypeError` arises exactly when `Status` has no `value`.
   * A buffered document is the converted record plus a `metadata` dict with
   * exactly the keys `org_id`, `status` and `role_id`, named after the
   * extension and filed under `base/status/role_id`.
   */
  lemma GeneratedSpec(org: Element, base: string)
    ensures Generated(org, base) == Fail(MissingRoles) <==> FindChild(org, "Roles").None?
    ensures FindChild(org, "Roles").Some? && Truthy(Extension(OrgIdPlain(org))) ==>
              (Generated(org, base) == Fail(TypeError) <==>
                 FindChild(org, "Status").Some? && Attr(FindChild(org, "Status").value, "value").None?)
    ensures FindChild(org, "Roles").Some? && !Truthy(Extension(OrgIdPlain(org))) ==> Generated(org, base) == Ok(None)
    ensures Generated(org, base).Ok? && Generated(org, base).value.Some? ==>
              var (folder, (name, doc)) := Generated(org, base).value.value;
              var extension := Extension(OrgIdPlain(org)).value;
              var status := StatusValue(org).value;
              var roleId := PrimaryRoleId(FindChild(org, "Roles").value);
              name == extension && doc.Map?
              && "metadata" in OrderedDict.Keys(doc.fields)
              && OrderedDict.Get(doc.fields, "metadata") == Map(BasicMetadata(extension, Some(status), roleId))
              && OrderedDict.Keys(BasicMetadata(extension, Some(status), roleId)) == ["org_id", "status", "role_id"]
              && ElementValue(org, false).Map?
              && (forall k :: k != "metadata" && k in OrderedDict.Keys(ElementValue(org, false).fields) ==>
                    k in OrderedDict.Keys(doc.fields)
                    && OrderedDict.Get(doc.fields, k) == OrderedDict.Get(ElementValue(org, false).fields, k))
              && (PlainComponent(base) && PlainComponent(status) && roleId != [] && roleId[0] != '/' ==>
                    folder == base + "/" + status + "/" + roleId)
  {
    if Generated(org, base).Ok? && Generated(org, base).value.Some? {
      var extension := Extension(OrgIdPlain(org)).value;
      var status := StatusValue(org).value;
      var roleId := PrimaryRoleId(FindChild(org, "Roles").value);
      OrganisationIsMap(org, false);
      WithMetadataSpec(ElementValue(org, false), BasicMetadata(extension, Some(status), roleId));
      MetadataKeys(extension, Some(status), roleId, "", "");
      PathJoinSpec(base, status);
      if PlainComponent(base) && PlainComponent(status) && roleId != [] && roleId[0] != '/' {
        PathJoinPlain(base, status);
        PathJoinSpec(base + "/" + status, roleId);
      }
    }
  }

  /**
   * The pool task fails exactly as import-v5.py's `process_organisation` does, so
   * `org_processed_count` counts the same records.
   */
  lemma SameFailures(org: Element, base: string)
    ensures FailureOf(Generated(org, base)) == FailureOf(ImportV5.OrganisationFile(org, base))
  {
  }

  // ---------------------------------------------------------------------
  // One batch

  /** The pool task the thread pool runs for each record of a batch. */
  function GenerateTask(base: string): Task
  {
    org => Generated(org, base)
  }

  /** The files of a successful batch: the YAML buffer, then its JSON copy. */
  function BatchWrites(buf: Buffer, base: string, baseJson: string): seq<FileWrite>
  {
    BufferWrites(buf, None, ".yaml") + BufferWrites(JsonBuffer(buf, base, baseJson), None, ".json")
  }

  /**
   * Every document of a successful batch is written as `{extension}.yaml` in
   * its folder and, when the rewritten folder names are distinct, as
   * `{extension}.json` in its folder with the YAML base replaced by the JSON
   * base.
   */
  lemma BatchWritesSpec(batch: seq<Element>, base: string, baseJson: string, i: nat)
    requires i < |batch| && Generated(batch[i], base).Ok? && Generated(batch[i], base).value.Some?
    ensures var (folder, (name, doc)) := Generated(batch[i], base).value.value;
            var ws := BatchWrites(BatchBuffer(batch, GenerateTask(base)), base, baseJson);
            (PathJoin(folder, name + ".yaml"), doc) in ws
            && (var buf := BatchBuffer(batch, GenerateTask(base));
                (forall p, q :: 0 <= p < q < |buf| ==> JsonFolders(buf, base, baseJson)[p] != JsonFolders(buf, base, baseJson)[q])
                ==> (PathJoin(Replace(folder, base, baseJson), name + ".json"), doc) in ws)
  {
    var buf := BatchBuffer(batch, GenerateTask(base));
    var p, q := BufferedAt(batch, GenerateTask(base), i);
    BufferWritesSpec(buf, None, ".yaml");
    if forall p, q :: 0 <= p < q < |buf| ==> JsonFolders(buf, base, baseJson)[p] != JsonFolders(buf, base, baseJson)[q] {
      JsonBufferWrites(buf, base, baseJson, None, ".json");
    }
  }

  /**
   * The JSON folder of `base/status/role_id`, for plain components in which
   * the YAML base does not occur, is `base_json/status/role_id`.
   */
  lemma JsonFolder(base: string, baseJson: string, status: string, roleId: string)
    requires base != [] && PlainComponent(base) && PlainComponent(status) && roleId != [] && roleId[0] != '/'
    requires !Occurs("/" + status + "/" + roleId, base)
    ensures Replace(PathJoin(PathJoin(base, status), roleId), base, baseJson) == baseJson + "/" + status + "/" + roleId
  {
    PathJoinPlain(base, status);
    PathJoinSpec(base + "/" + status, roleId);
    assert base + "/" + status + "/" + roleId == base + "/" + (status + "/" + roleId);
    assert "/" + (status + "/" + roleId) == "/" + status + "/" + roleId;
    RewriteFolder(base, baseJson, status + "/" + roleId);
    assert baseJson + "/" + (status + "/" + roleId) == baseJson + "/" + status + "/" + roleId;
  }

  // ---------------------------------------------------------------------
  // The consumer

  /** The batches the consumer stops at: those holding a record whose task fails. */
  function BatchFails(base: string): Batch -> bool
  {
    (b: Batch) => BatchFailure(b.elements, GenerateTask(base)).Some?
  }

  /** The files of successive successful batches. */
  function BatchesWrites(bs: seq<Batch>, base: string, baseJson: string): seq<FileWrite>
  {
    if bs == [] then []
    else BatchesWrites(bs[..|bs| - 1], base, baseJson) + BatchWrites(BatchBuffer(bs[|bs| - 1].elements, GenerateTask(base)), base, baseJson)
  }

  lemma BatchesWritesSnoc(bs: seq<Batch>, b: Batch, base: string, baseJson: string)
    ensures BatchesWrites(bs + [b], base, baseJson) == BatchesWrites(bs, base, baseJson) + BatchWrites(BatchBuffer(b.elements, GenerateTask(base)), base, baseJson)
  {
    assert (bs + [b])[..|bs|] == bs;
  }

  /**
   * Published batches followed by the sentinel stop at the first batch
   * holding a failing record, and at the sentinel exactly when no record
   * fails.
   */
  lemma StopsAtFailingRecord(bs: seq<Batch>, base: string)
    ensures StopIndex(bs, base) <= |bs|
    ensures StopIndex(bs, base) == |bs| <==>
              forall b, i :: b in bs && 0 <= i < |b.elements| ==> Generated(b.elements[i], base).Ok?
  {
    StopOfPublished(bs, BatchFails(base));
    forall b | b in bs
      ensures !BatchFails(base)(b) <==> forall i :: 0 <= i < |b.elements| ==> Generated(b.elements[i], base).Ok?
    {
      BatchFailureSpec(b.elements, GenerateTask(base));
    }
  }

  /** The counters and processed count of the records whose tasks have run. */
  ghost predicate Tallied(counts: RoleCounts, processed: nat, seen: seq<Element>, base: string)
  {
    counts == ImportV5.CountAll(RoleCounts([], 0), seen) && processed == ImportV8.Succeeded(seen, base)
  }

  /** One more task keeps the tallies. */
  lemma TalliedStep(counts: RoleCounts, processed: nat, seen: seq<Element>, org: Element, base: string)
    requires Tallied(counts, processed, seen, base)
    ensures Tallied(ImportV5.CountOrganisation(counts, org),
                    processed + (if FailureOf(Generated(org, base)).None? then 1 else 0), seen + [org], base)
  {
    assert (seen + [org])[..|seen|] == seen;
    ImportV8.SucceededSnoc(seen, org, base);
    SameFailures(org, base);
  }

  /**
   * The rest of `generate_organisation_yaml` once the role is counted: the
   * plain `OrgId` and `Status` are looked up, and a record with an extension
   * is converted, given its metadata and filed under `base/{status}/{role_id}`,
   * or ends in a `TypeError` when `Status` has no `value`.
   */
  method BufferEntry(org: Element, roleId: string, base: string) returns (r: Result<Option<Entry>>)
    requires FindChild(org, "Roles").Some? && roleId == PrimaryRoleId(FindChild(org, "Roles").value)
    ensures r == Generated(org, base)
  {
    var orgIdElement := FindChild(org, "OrgId");
    var statusElement := FindChild(org, "Status");
    var statusValue := if statusElement.Some? then Attr(statusElement.value, "value") else Some(UNKNOWN);
    r := Ok(None);
    if orgIdElement.Some? {
      var extension := Attr(orgIdElement.value, "extension");
      if extension.Some? && extension.value != "" {
        OrganisationIsMap(org, false);
        var converted := ProcessElement(org, false);
        var organisationDict := converted.value;
        organisationDict := WithMetadata(organisationDict, BasicMetadata(extension.value, statusValue, roleId));
        if statusValue.None? {
          return Fail(TypeError);
        }
        var folderPath := PathJoin(PathJoin(base, statusValue.value), roleId);
        r := Ok(Some((folderPath, (extension.value, organisationDict))));
      }
    }
  }

  /**
   * The script's globals: the role counters, `org_processed_count`, the
   * files written so far and the two output bases; `seen` is every record
   * whose task has run.
   */
  class Importer {
    var counts: RoleCounts
    var orgProcessedCount: nat
    var files: seq<FileWrite>
    const base: string
    const baseJson: string
    ghost var seen: seq<Element>

    /** The counters and the processed count are those of the records seen. */
    ghost predicate Valid()
      reads this
    {
      Tallied(counts, orgProcessedCount, seen, base)
    }

    constructor(base: string, baseJson: string)
      ensures Valid() && seen == [] && files == [] && this.base == base && this.baseJson == baseJson
      ensures counts == RoleCounts([], 0) && orgProcessedCount == 0
    {
      counts := RoleCounts([], 0);
      orgProcessedCount := 0;
      files := [];
      this.base := base;
      this.baseJson := baseJson;
      seen := [];
    }

    /**
     * `generate_organisation_yaml`: the counters move once `Roles` is found,
     * the buffer gains the record's document, if any, at the end of its
     * folder, and `org_processed_count` rises exactly when the pool task does not
     * fail.
     */
    method GenerateOrganisationYaml(org: Element, orgCount: int, buf: Buffer) returns (buf': Buffer, failure: Option<Failure>)
      requires Valid()
      modifies this
      ensures seen == old(seen) + [org]
      ensures counts == ImportV5.CountOrganisation(old(counts), org)
      ensures buf' == Buffered(buf, Generated(org, base))
      ensures failure == FailureOf(Generated(org, base))
      ensures orgProcessedCount == old(orgProcessedCount) + (if failure.None? then 1 else 0)
      ensures files == old(files)
      ensures Valid()
    {
      TalliedStep(counts, orgProcessedCount, seen, org, base);
      seen := seen + [org];
      var rolesElement := FindChild(org, "Roles");
      if rolesElement.None? {
        return buf, Some(MissingRoles);
      }
      var roleId := SelectPrimaryRole(rolesElement.value);
      counts := CountRole(counts, roleId);
      var outcome := BufferEntry(org, roleId, base);
      failure := FailureOf(outcome);
      buf' := buf;
      if outcome.Ok? && outcome.value.Some? {
        var (folderPath, item) := outcome.value.value;
        buf' := OrderedDict.AppendAt(buf, folderPath, item);
      }
      if outcome.Ok? {
        orgProcessedCount := orgProcessedCount + 1;
      }
    }

    /**
     * `process_batch_elements`: every task of the batch runs, in batch
     * order; if one failed, the first failure is raised and nothing is
     * written, otherwise every buffered document is written as YAML and then
     * as JSON.
     */
    method ProcessBatchElements(batch: seq<Element>, orgCount: nat) returns (failure: Option<Failure>)
      requires Valid()
      modifies this
      ensures seen == old(seen) + batch
      ensures failure == BatchFailure(batch, GenerateTask(base))
      ensures files == old(files) + (if failure.None? then BatchWrites(BatchBuffer(batch, GenerateTask(base)), base, baseJson) else [])
      ensures Valid()
    {
      var batchYamlData: Buffer := [];
      failure := None;
      ghost var s0 := seen;
      ghost var f0 := files;
      for index := 0 to |batch|
        invariant seen == s0 + batch[..index] && files == f0
        invariant batchYamlData == BatchBuffer(batch[..index], GenerateTask(base))
        invariant failure == BatchFailure(batch[..index], GenerateTask(base))
        invariant Valid()
      {
        var elem := batch[index];
        TakeSnoc(batch, index);
        assert batch[..index + 1][..index] == batch[..index];
        var f;
        batchYamlData, f := GenerateOrganisationYaml(elem, orgCount - |batch| + index + 1, batchYamlData);
        if failure.None? {
          failure := f;
        }
        AppendAssoc(s0, batch[..index], [elem]);
      }
      assert batch[..|batch|] == batch;
      if failure.Some? {
        return;
      }
      var batchJsonData := CopyToJson(batchYamlData, base, baseJson);
      var yamlWrites := WriteBuffer(batchYamlData, None, ".yaml");
      var jsonWrites := WriteBuffer(batchJsonData, None, ".json");
      files := files + (yamlWrites + jsonWrites);
    }

    /**
     * `process_batches_from_queue`: items are taken in FIFO order, each batch
     * is processed, and the loop ends at the first sentinel or after the
     * first batch that fails, whose failure is raised.
     */
    method ProcessBatchesFromQueue(queue: Channel) returns (failure: Option<Failure>)
      requires Valid() && queue.Valid() && None in queue.items
      modifies this, queue
      ensures var items := old(queue.items);
              var k := FirstStop(items, BatchFails(base));
              k < |items|
              && queue.items == items[k + 1..] && queue.taken == old(queue.taken) + items[..k + 1]
              && queue.puts == old(queue.puts)
              && failure == (if items[k].None? then None else BatchFailure(items[k].value.elements, GenerateTask(base)))
              && seen == old(seen) + Flatten(Batches(items[..k + 1]))
              && files == old(files) + BatchesWrites(Batches(items[..k]), base, baseJson)
      ensures Valid() && queue.Valid()
    {
      ghost var items := queue.items;
      ghost var t0 := queue.taken;
      ghost var s0 := seen;
      ghost var f0 := files;
      ghost var k := FirstStop(items, BatchFails(base));
      assert k < |items| by {
        var n :| 0 <= n < |items| && items[n] == None;
      }
      ghost var i := 0;
      failure := None;
      while true
        invariant i <= k && queue.Valid() && Valid()
        invariant queue.items == items[i..] && queue.taken == t0 + items[..i] && queue.puts == old(queue.puts)
        invariant seen == s0 + Flatten(Batches(items[..i])) && files == f0 + BatchesWrites(Batches(items[..i]), base, baseJson)
        invariant failure.None?
        decreases |queue.items|
      {
        var batchInfo := queue.Get();
        assert batchInfo == items[i];
        TakeSnoc(items, i);
        AppendAssoc(t0, items[..i], [items[i]]);
        if batchInfo.None? {
          assert i == k;
          assert Batches(items[..i + 1]) == Batches(items[..i]) by {
            assert items[..i + 1][..i] == items[..i];
          }
          break;
        }
        var b := batchInfo.value;
        BatchesSnoc(items[..i], b);
        FlattenSnoc(Batches(items[..i]), b);
        AppendAssoc(s0, Flatten(Batches(items[..i])), b.elements);
        failure := ProcessBatchElements(b.elements, b.orgCount);
        if failure.Some? {
          assert i == k;
          return;
        }
        BatchesWritesSnoc(Batches(items[..i]), b, base, baseJson);
        AppendAssoc(f0, BatchesWrites(Batches(items[..i]), base, baseJson), BatchWrites(BatchBuffer(b.elements, GenerateTask(base)), base, baseJson));
        i := i + 1;
      }
    }

    /**
     * The script: the producer runs to its end (the queue is unbounded, so it
     * never waits), then the consumer drains the queue. Every record is in
     * exactly one published batch; the run processes the batches up to and
     * including the first one holding a failing record, raises that batch's
     * first failure, and writes the files of every batch before it; with no
     * failing record all batches are processed and written.
     */
    method Run(events: seq<ParseEvent>) returns (failure: Option<Failure>, ghost bs: seq<Batch>)
      requires Valid()
      modifies this
      ensures Flatten(bs) == Records(events, false) && Sized(bs, BATCH_SIZE) && Counted(bs)
      ensures StopIndex(bs, base) <= |bs|
      ensures StopIndex(bs, base) == |bs| <==>
                forall b, i :: b in bs && 0 <= i < |b.elements| ==> Generated(b.elements[i], base).Ok?
      ensures failure == if StopIndex(bs, base) == |bs| then None else BatchFailure(bs[StopIndex(bs, base)].elements, GenerateTask(base))
      ensures seen == old(seen) + Flatten(Processed(bs, StopIndex(bs, base)))
      ensures files == old(files) + BatchesWrites(bs[..StopIndex(bs, base)], base, baseJson)
      ensures Valid()
    {
      var queue := new Channel(0);
      bs := PreloadBatches(events, BATCH_SIZE, queue);
      ghost var items := Published(bs) + [None];
      assert queue.items == items;
      assert items[|bs|] == None;
      StopsAtFailingRecord(bs, base);
      PublishedPrefix(bs, BatchFails(base));
      failure := ProcessBatchesFromQueue(queue);
    }
  }

  /** Where the consumer stops on the published batches and the sentinel. */
  function StopIndex(bs: seq<Batch>, base: string): nat
  {
    FirstStop(Published(bs) + [None], BatchFails(base))
  }

  // ---------------------------------------------------------------------
  // The producer

  /** The producer's state between events: full batches put, the rest pending. */
  ghost predicate Preloading(queue: Channel, bs: seq<Batch>, batch: seq<Element>, orgCount: nat, size: nat,
                             i0: seq<Option<Batch>>, p0: seq<Option<Batch>>, t0: seq<Option<Batch>>)
    reads queue
  {
    Pending(bs, batch, orgCount, size) && queue.Valid() && queue.capacity == 0
    && queue.items == i0 + Published(bs) && queue.puts == p0 + Published(bs) && queue.taken == t0
  }

  /** `batch_queue.put(item)` on the unbounded queue. */
  method Put(queue: Channel, item: Option<Batch>)
    requires queue.Valid() && queue.capacity == 0
    modifies queue
    ensures queue.Valid() && queue.capacity == 0
    ensures queue.items == old(queue.items) + [item] && queue.puts == old(queue.puts) + [item]
    ensures queue.taken == old(queue.taken)
  {
    var ok := queue.TryPut(item);
    assert ok;
  }

  /**
   * One record seen by `preload_batches`: it joins the batch and is counted;
   * a batch that reaches exactly `batch_size` is put on the queue and emptied.
   */
  method Accept(queue: Channel, elem: Element, orgCount: nat, batch: seq<Element>, batchSize: nat, ghost bs: seq<Batch>,
                ghost i0: seq<Option<Batch>>, ghost p0: seq<Option<Batch>>, ghost t0: seq<Option<Batch>>)
    returns (orgCount': nat, batch': seq<Element>, ghost bs': seq<Batch>)
    requires batchSize > 0 && Preloading(queue, bs, batch, orgCount, batchSize, i0, p0, t0)
    modifies queue
    ensures Preloading(queue, bs', batch', orgCount', batchSize, i0, p0, t0)
    ensures Flatten(bs') + batch' == Flatten(bs) + batch + [elem]
  {
    batch' := batch + [elem];
    orgCount' := orgCount + 1;
    bs' := bs;
    if |batch'| == batchSize {
      PendingFlush(bs, batch', orgCount', batchSize);
      var b := Batch(batch', orgCount');
      Put(queue, Some(b));
      PublishedSnoc(bs, b);
      AppendAssoc(i0, Published(bs), [Some(b)]);
      AppendAssoc(p0, Published(bs), [Some(b)]);
      bs' := bs + [b];
      batch' := [];
      assert Flatten(bs') + batch' == Flatten(bs');
    } else {
      AppendAssoc(Flatten(bs), batch, [elem]);
    }
  }

  /**
   * `preload_batches`: the records are put on the queue in batches of
   * exactly `batch_size`, each with the count of records read up to its
   * end, then the remainder if there is one, then always one `None`.
   */
  method PreloadBatches(events: seq<ParseEvent>, batchSize: nat, queue: Channel) returns (ghost bs: seq<Batch>)
    requires batchSize > 0 && queue.Valid() && queue.capacity == 0
    modifies queue
    ensures Flatten(bs) == Records(events, false) && Sized(bs, batchSize) && Counted(bs)
    ensures queue.Valid() && queue.items == old(queue.items) + Published(bs) + [None]
    ensures queue.puts == old(queue.puts) + Published(bs) + [None] && queue.taken == old(queue.taken)
  {
    var batch := [];
    var orgCount := 0;
    bs := [];
    ghost var i0, p0, t0 := queue.items, queue.puts, queue.taken;
    for i := 0 to |events|
      invariant Flatten(bs) + batch == Records(events[..i], false)
      invariant Preloading(queue, bs, batch, orgCount, batchSize, i0, p0, t0)
    {
      var event := events[i];
      var elem := event.element;
      RecordsStep(events, i, false);
      if event.kind == End && EndsWith(elem.tag, "Organisation") {
        orgCount, batch, bs := Accept(queue, elem, orgCount, batch, batchSize, bs, i0, p0, t0);
      }
    }
    assert events[..|events|] == events;
    if batch != [] {
      var b := Batch(batch, orgCount);
      Put(queue, Some(b));
      FlattenSnoc(bs, b);
      CountedSnoc(bs, b);
      SizedSnoc(bs, b, batchSize);
      PublishedSnoc(bs, b);
      AppendAssoc(i0, Published(bs), [Some(b)]);
      AppendAssoc(p0, Published(bs), [Some(b)]);
      bs := bs + [b];
    } else {
      assert Flatten(bs) + batch == Flatten(bs);
      assert Sized(bs, batchSize);
    }
    Put(queue, None);
  }
}
