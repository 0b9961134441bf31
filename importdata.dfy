/**
 * importdata.py: the newest snapshot. A producer thread reads the records
 * (tag exactly `Organisation`) into batches on a queue of at most ten items;
 * a consumer thread runs each batch's tasks, collects the summary entries
 * and writes the batch's documents under `{base}/yaml/{status}/{role_id}`
 * and `{base}/json/...`; once both threads are done, `main` writes the
 * summary files. A record whose `Status` has no `value` is no longer an
 * error: it is filed under `None/{role_id}` with a `null` status.
 *
 * The two threads are modelled on one schedule: the producer runs, and the
 * consumer takes one item whenever the producer waits on a full queue, and
 * drains the queue once the producer is done.
 */
module ImportData {
  import opened Wrappers
  import opened PyText
  import opened Xml
  import opened Convert
  import opened Classify
  import opened Batching
  import opened Output
  import opened Tasks
  import opened Summary
  import OrderedDict
  import ImportV5

  /** `Queue(maxsize=10)` */
  const QUEUE_SIZE: nat := 10

  /** The `batch_size` used when none is given. */
  const DEFAULT_BATCH_SIZE: nat := 1000

  /** The `base_output_path` used when none is given. */
  const DEFAULT_BASE_OUTPUT_PATH: string := "output"

  /** `os.path.join(base_output_path, "yaml")` */
  function YamlBase(outputPath: string): string
  {
    PathJoin(outputPath, "yaml")
  }

  /** `os.path.join(base_output_path, "json")` */
  function JsonBase(outputPath: string): string
  {
    PathJoin(outputPath, "json")
  }

  /** For a plain output path the two bases are its `yaml` and `json` sub-folders, and they differ. */
  lemma Bases(outputPath: string)
    requires PlainComponent(outputPath)
    ensures YamlBase(outputPath) == outputPath + "/yaml" && JsonBase(outputPath) == outputPath + "/json"
    ensures YamlBase(outputPath) != JsonBase(outputPath)
  {
    PathJoinPlain(outputPath, "yaml");
    PathJoinPlain(outputPath, "json");
    assert YamlBase(outputPath)[|outputPath| + 1] != JsonBase(outputPath)[|outputPath| + 1];
  }

  // ---------------------------------------------------------------------
  // One record

  /** `f"{status_value}"`: the string itself, or `None` printed as `"None"`. */
  function StatusText(status: Option<string>): string
  {
    match status
    case None => "None"
    case Some(s) => s
  }

  /**
   * What `generate_organisation_yaml` buffers: nothing without an extension,
   * otherwise the record converted with the `Roles.Role` normalisation plus
   * its location-aware metadata, under the key `{status}/{role_id}`. A record
   * without `Roles` ends the pool task with `sys.exit`, and a conversion
   * whose `Roles` test raises ends it with that `TypeError`.
   */
  function Generated(org: Element): Result<Option<Entry>>
  {
    match FindChild(org, "Roles")
    case None => Fail(MissingRoles)
    case Some(roles) =>
      var extension := Extension(OrgIdPlain(org));
      if !Truthy(extension) then Ok(None)
      else match ProcessResult(org, true)
        case Fail(f) => Fail(f)
        case Ok(converted) =>
          var status := StatusValue(org);
          var roleId := PrimaryRoleId(roles);
          OrganisationIsMap(org, true);
          Ok(Some((StatusText(status) + "/" + roleId,
                   (extension.value, WithMetadata(converted,
                                                  LocatedMetadata(extension.value, status, roleId,
                                                                  LocationField(org, "PostCode"), LocationField(org, "UPRN")))))))
  }

  /**
   * The pool task exits exactly when `Roles` is missing, raises `TypeError`
   * exactly when the conversion does, and fails for no other reason; nothing
   * is buffered without an extension. A buffered document is the
   * converted record plus a `metadata` dict with exactly the keys `org_id`,
   * `status`, `role_id`, `post_code` and `uprn` (the status `null` when
   * `Status` has no `value`), named after the extension and keyed
   * `{status}/{role_id}`, with `None` standing for a missing status value.
   */
  lemma GeneratedSpec(org: Element)
    ensures Generated(org) == Fail(MissingRoles) <==> FindChild(org, "Roles").None?
    ensures Generated(org) == Fail(TypeError) <==> ConversionRaises(org)
    ensures Generated(org).Fail? <==> FindChild(org, "Roles").None? || ConversionRaises(org)
    ensures FindChild(org, "Roles").Some? && !Truthy(Extension(OrgIdPlain(org))) ==> Generated(org) == Ok(None)
    ensures FindChild(org, "Roles").Some? && Truthy(Extension(OrgIdPlain(org))) && !RaisesIn(org) ==>
              Generated(org).Ok? && Generated(org).value.Some?
    ensures Generated(org).Ok? && Generated(org).value.Some? ==>
              var (key, (name, doc)) := Generated(org).value.value;
              var extension := Extension(OrgIdPlain(org)).value;
              var status := StatusValue(org);
              var roleId := PrimaryRoleId(FindChild(org, "Roles").value);
              var md := LocatedMetadata(extension, status, roleId, LocationField(org, "PostCode"), LocationField(org, "UPRN"));
              name == extension && doc.Map?
              && key == (if status.Some? then status.value else "None") + "/" + roleId
              && (status.None? <==> FindChild(org, "Status").Some? && Attr(FindChild(org, "Status").value, "value").None?)
              && "metadata" in OrderedDict.Keys(doc.fields) && OrderedDict.Get(doc.fields, "metadata") == Map(md)
              && OrderedDict.Keys(md) == ["org_id", "status", "role_id", "post_code", "uprn"]
              && OrderedDict.GetOr(md, "status", Str(UNKNOWN)) == (if status.Some? then Str(status.value) else Null)
              && ElementValue(org, true).Map?
              && (forall k :: k != "metadata" && k in OrderedDict.Keys(ElementValue(org, true).fields) ==>
                    k in OrderedDict.Keys(doc.fields)
                    && OrderedDict.Get(doc.fields, k) == OrderedDict.Get(ElementValue(org, true).fields, k))
  {
    if Generated(org).Ok? && Generated(org).value.Some? {
      var extension := Extension(OrgIdPlain(org)).value;
      var status := StatusValue(org);
      var roleId := PrimaryRoleId(FindChild(org, "Roles").value);
      var postCode, uprn := LocationField(org, "PostCode"), LocationField(org, "UPRN");
      OrganisationIsMap(org, true);
      WithMetadataSpec(ElementValue(org, true), LocatedMetadata(extension, status, roleId, postCode, uprn));
      MetadataKeys(extension, status, roleId, postCode, uprn);
      LocatedMetadataFields(extension, status, roleId, postCode, uprn);
    }
  }

  /** The pool task the executor runs for each record of a batch. */
  function GenerateTask(): Task
  {
    org => Generated(org)
  }

  /** The role counters and `org_processed_count` after the pool tasks of the records `seen`. */
  ghost predicate Tallied(counts: RoleCounts, processed: nat, seen: seq<Element>)
  {
    counts == ImportV5.CountAll(RoleCounts([], 0), seen) && processed == Successes(seen, GenerateTask())
  }

  /**
   * One more task keeps the tallies: the counters move exactly when the
   * record has `Roles`, and `org_processed_count` exactly when the task does
   * not fail (by `GeneratedFails`, when in addition its conversion does not
   * raise).
   */
  lemma TalliedStep(counts: RoleCounts, processed: nat, seen: seq<Element>, org: Element)
    requires Tallied(counts, processed, seen)
    ensures Tallied(ImportV5.CountOrganisation(counts, org),
                    processed + (if FailureOf(Generated(org)).None? then 1 else 0), seen + [org])
  {
    assert (seen + [org])[..|seen|] == seen;
    SuccessesSnoc(seen, org, GenerateTask());
  }

  /**
   * The records that are processed are those that were counted, less those
   * whose conversion raised: `org_processed_count` never exceeds the sum of
   * the role counters, and equals it exactly when no conversion raised.
   */
  lemma {:induction false} SuccessesBound(seen: seq<Element>)
    ensures Successes(seen, GenerateTask()) <= ImportV5.WithRoles(seen)
    ensures Successes(seen, GenerateTask()) == ImportV5.WithRoles(seen) <==>
              forall i :: 0 <= i < |seen| ==> !ConversionRaises(seen[i])
  {
    if seen != [] {
      var init, org := seen[..|seen| - 1], seen[|seen| - 1];
      SuccessesBound(init);
      GeneratedFails(org);
      assert seen == init + [org];
      assert forall i :: 0 <= i < |init| ==> init[i] == seen[i];
      if forall i :: 0 <= i < |seen| ==> !ConversionRaises(seen[i]) {
        assert forall i :: 0 <= i < |init| ==> !ConversionRaises(init[i]);
      }
    }
  }

  /**
   * `org_processed_count` is at most the sum of the role counters, and
   * equal to it exactly when no record's conversion raised.
   */
  lemma TalliesAgree(counts: RoleCounts, processed: nat, seen: seq<Element>)
    requires Tallied(counts, processed, seen)
    ensures processed <= Total(counts)
    ensures Total(counts) == processed <==> forall i :: 0 <= i < |seen| ==> !ConversionRaises(seen[i])
  {
    ImportV5.CountAllTotal(RoleCounts([], 0), seen);
    SuccessesBound(seen);
  }

  /**
   * The rest of `generate_organisation_yaml` once the role is counted: the
   * status and location fields are read, and a record with an extension is
   * converted, given its metadata and keyed `{status}/{role_id}`.
   */
  method BufferEntry(org: Element, roleId: string) returns (r: Result<Option<Entry>>)
    requires FindChild(org, "Roles").Some? && roleId == PrimaryRoleId(FindChild(org, "Roles").value)
    ensures r == Generated(org)
  {
    var orgIdElement := FindChild(org, "OrgId");
    var statusElement := FindChild(org, "Status");
    var statusValue := if statusElement.Some? then Attr(statusElement.value, "value") else Some(UNKNOWN);
    var postCode := LocationField(org, "PostCode");
    var uprn := LocationField(org, "UPRN");
    r := Ok(None);
    if orgIdElement.Some? {
      var extension := Attr(orgIdElement.value, "extension");
      if extension.Some? && extension.value != "" {
        var converted := ProcessElement(org, true);
        if converted.Fail? {
          return Fail(converted.failure);
        }
        OrganisationIsMap(org, true);
        var organisationDict := WithMetadata(converted.value, LocatedMetadata(extension.value, statusValue, roleId, postCode, uprn));
        var key := StatusText(statusValue) + "/" + roleId;
        r := Ok(Some((key, (extension.value, organisationDict))));
      }
    }
  }

  /**
   * The summary entry of a buffered document whose `Roles` value is a dict
   * and whose `Role`, if any, is not `None`: the extension, the record's
   * `Name`, the primary role, its role ids, the status (`null` when `Status`
   * has no `value`) and the location.
   */
  lemma GeneratedEntry(org: Element)
    requires Generated(org).Ok? && Generated(org).value.Some?
    requires var v := ElementValue(org, true);
             v.Map?
             && ("Roles" in OrderedDict.Keys(v.fields) ==> OrderedDict.Get(v.fields, "Roles").Map?)
             && ("Roles" in OrderedDict.Keys(v.fields) ==>
                   var roles := OrderedDict.Get(v.fields, "Roles").fields;
                   "Role" in OrderedDict.Keys(roles) ==> !OrderedDict.Get(roles, "Role").Null?)
    ensures var doc := Generated(org).value.value.1.1;
            var v := ElementValue(org, true);
            RoleIds(v.fields).Ok?
            && EntryOf(doc) == Ok(SummaryEntry(Str(Extension(OrgIdPlain(org)).value), Field(v.fields, "Name", Str(UNKNOWN)),
                                               Str(PrimaryRoleId(FindChild(org, "Roles").value)), RoleIds(v.fields).value,
                                               StrOrNull(StatusValue(org)), Str(LocationField(org, "PostCode")),
                                               Str(LocationField(org, "UPRN"))))
            && (GroupKey(EntryOf(doc).value).0.Null? <==> StatusValue(org).None?)
  {
    EntryOfDocument(ElementValue(org, true), Extension(OrgIdPlain(org)).value, StatusValue(org),
                    PrimaryRoleId(FindChild(org, "Roles").value), LocationField(org, "PostCode"), LocationField(org, "UPRN"));
  }

  // ---------------------------------------------------------------------
  // One batch

  /**
   * The exception `process_batch_elements` raises: the first failing task's,
   * or else that of the first buffered document whose summary entry cannot
   * be built.
   */
  function BatchFailed(batch: seq<Element>): Option<Failure>
  {
    var f := BatchFailure(batch, GenerateTask());
    if f.Some? then f else CollectFailure(Documents(BatchBuffer(batch, GenerateTask())))
  }

  /**
   * The summary entries a batch upserts: none when a task fails, otherwise
   * those of its buffered documents up to the first one without an entry.
   */
  function BatchEntries(batch: seq<Element>): seq<SummaryEntry>
  {
    if BatchFailure(batch, GenerateTask()).Some? then []
    else Collected(Documents(BatchBuffer(batch, GenerateTask())))
  }

  /**
   * A task fails exactly when the record has no `Roles`, with that exit, or
   * when its conversion raises, with `TypeError`.
   */
  lemma GeneratedFails(org: Element)
    ensures GenerateTask()(org).Ok? <==> FindChild(org, "Roles").Some? && !ConversionRaises(org)
    ensures GenerateTask()(org).Fail? ==>
              GenerateTask()(org).failure == if FindChild(org, "Roles").None? then MissingRoles else TypeError
  {
  }

  /**
   * A batch raises nothing exactly when every record has `Roles` and a
   * conversion that does not raise, and every buffered document has a
   * summary entry; a failing task raises the exit of a missing `Roles` or
   * the conversion's `TypeError`.
   */
  lemma BatchFailedSpec(batch: seq<Element>)
    ensures var docs := Documents(BatchBuffer(batch, GenerateTask()));
            BatchFailed(batch).None? <==>
              (forall i :: 0 <= i < |batch| ==> FindChild(batch[i], "Roles").Some? && !ConversionRaises(batch[i]))
              && (forall j :: 0 <= j < |docs| ==> EntryOf(docs[j]).Ok?)
    ensures BatchFailure(batch, GenerateTask()).Some? ==>
              BatchFailed(batch) == BatchFailure(batch, GenerateTask())
              && (BatchFailed(batch) == Some(MissingRoles) || BatchFailed(batch) == Some(TypeError))
  {
    BatchFailureSpec(batch, GenerateTask());
    forall i | 0 <= i < |batch|
      ensures GenerateTask()(batch[i]).Ok? <==> FindChild(batch[i], "Roles").Some? && !ConversionRaises(batch[i])
    {
      GeneratedFails(batch[i]);
    }
    var docs := Documents(BatchBuffer(batch, GenerateTask()));
    CollectFails(docs);
    assert BatchFailure(batch, GenerateTask()).None? <==>
           forall i :: 0 <= i < |batch| ==> FindChild(batch[i], "Roles").Some? && !ConversionRaises(batch[i]);
    assert BatchFailed(batch).None? <==> BatchFailure(batch, GenerateTask()).None? && CollectFailure(docs).None?;
    assert CollectFailure(docs).None? <==> forall j :: 0 <= j < |docs| ==> EntryOf(docs[j]).Ok?;
    assert docs == Documents(BatchBuffer(batch, GenerateTask()));
    if BatchFailure(batch, GenerateTask()).Some? {
      var i := FirstFailure(batch);
    }
  }

  /**
   * The failure a batch's tasks raise is that of its first failing record:
   * the exit of a missing `Roles`, or else the conversion's `TypeError`.
   */
  lemma {:induction false} FirstFailure(batch: seq<Element>) returns (i: nat)
    requires BatchFailure(batch, GenerateTask()).Some?
    ensures i < |batch| && (FindChild(batch[i], "Roles").None? || ConversionRaises(batch[i]))
    ensures forall j :: 0 <= j < i ==> FindChild(batch[j], "Roles").Some? && !ConversionRaises(batch[j])
    ensures BatchFailure(batch, GenerateTask()) == Some(if FindChild(batch[i], "Roles").None? then MissingRoles else TypeError)
  {
    var init := batch[..|batch| - 1];
    assert forall j :: 0 <= j < |init| ==> init[j] == batch[j];
    if BatchFailure(init, GenerateTask()).Some? {
      i := FirstFailure(init);
    } else {
      i := |batch| - 1;
      BatchFailureSpec(init, GenerateTask());
      forall j | 0 <= j < i ensures FindChild(batch[j], "Roles").Some? && !ConversionRaises(batch[j]) {
        GeneratedFails(batch[j]);
      }
    }
    GeneratedFails(batch[i]);
  }

  /**
   * After a batch that raises nothing, the summary entry of every document
   * it buffered is among the entries it upserted.
   */
  lemma SummaryHasRecord(batch: seq<Element>, i: nat)
    requires BatchFailed(batch).None?
    requires i < |batch| && Generated(batch[i]).Ok? && Generated(batch[i]).value.Some?
    ensures var doc := Generated(batch[i]).value.value.1.1;
            EntryOf(doc).Ok? && EntryOf(doc).value in BatchEntries(batch)
  {
    var buf := BatchBuffer(batch, GenerateTask());
    var docs := Documents(buf);
    var p, q := BufferedAt(batch, GenerateTask(), i);
    DocumentsAt(buf, p, q);
    CollectAll(docs);
  }

  /** The YAML files of a batch under the YAML base, then its JSON files under the JSON base. */
  function BatchWrites(buf: Buffer, yamlBase: string, jsonBase: string): seq<FileWrite>
  {
    BufferWrites(buf, Some(yamlBase), ".yaml") + BufferWrites(JsonBuffer(buf, yamlBase, jsonBase), Some(jsonBase), ".json")
  }

  /**
   * Every document of a successful batch is written as
   * `{yaml base}/{key}/{extension}.yaml`. When the YAML base occurs in none
   * of the batch's keys (so that `replace` leaves them alone), it is also
   * written as `{json base}/{key}/{extension}.json`.
   */
  lemma BatchWritesSpec(batch: seq<Element>, yamlBase: string, jsonBase: string, i: nat)
    requires i < |batch| && Generated(batch[i]).Ok? && Generated(batch[i]).value.Some?
    ensures var (key, (name, doc)) := Generated(batch[i]).value.value;
            var buf := BatchBuffer(batch, GenerateTask());
            var ws := BatchWrites(buf, yamlBase, jsonBase);
            (PathJoin(PathJoin(yamlBase, key), name + ".yaml"), doc) in ws
            && (yamlBase != [] && (forall p :: 0 <= p < |buf| ==> !Occurs(buf[p].0, yamlBase)) ==>
                  (PathJoin(PathJoin(jsonBase, key), name + ".json"), doc) in ws)
  {
    var buf := BatchBuffer(batch, GenerateTask());
    var p, q := BufferedAt(batch, GenerateTask(), i);
    BufferWritesSpec(buf, Some(yamlBase), ".yaml");
    if yamlBase != [] && forall p :: 0 <= p < |buf| ==> !Occurs(buf[p].0, yamlBase) {
      BatchBufferSpec(batch, GenerateTask());
      var js := JsonFolders(buf, yamlBase, jsonBase);
      forall p | 0 <= p < |buf| ensures js[p] == buf[p].0 {
        ReplaceAbsent(buf[p].0, yamlBase, jsonBase);
      }
      JsonBufferWrites(buf, yamlBase, jsonBase, Some(jsonBase), ".json");
    }
  }

  /** The files of successive successful batches. */
  function BatchesWrites(bs: seq<Batch>, yamlBase: string, jsonBase: string): seq<FileWrite>
  {
    if bs == [] then []
    else BatchesWrites(bs[..|bs| - 1], yamlBase, jsonBase) + BatchWrites(BatchBuffer(bs[|bs| - 1].elements, GenerateTask()), yamlBase, jsonBase)
  }

  lemma BatchesWritesSnoc(bs: seq<Batch>, b: Batch, yamlBase: string, jsonBase: string)
    ensures BatchesWrites(bs + [b], yamlBase, jsonBase)
            == BatchesWrites(bs, yamlBase, jsonBase) + BatchWrites(BatchBuffer(b.elements, GenerateTask()), yamlBase, jsonBase)
  {
    assert (bs + [b])[..|bs|] == bs;
  }

  /** The summary entries of successive batches. */
  function BatchesEntries(bs: seq<Batch>): seq<SummaryEntry>
  {
    if bs == [] then [] else BatchesEntries(bs[..|bs| - 1]) + BatchEntries(bs[|bs| - 1].elements)
  }

  lemma BatchesEntriesSnoc(bs: seq<Batch>, b: Batch)
    ensures BatchesEntries(bs + [b]) == BatchesEntries(bs) + BatchEntries(b.elements)
  {
    assert (bs + [b])[..|bs|] == bs;
  }

  // ---------------------------------------------------------------------
  // The consumer's history

  /** The processing thread: not started, taking items, ended at the sentinel, or ended by an exception. */
  datatype Consumer = Off | Running | Finished | Died

  /** Where the items taken so far leave a started consumer: the last item decides. */
  function StatusAfter(taken: seq<Option<Batch>>): Consumer
  {
    if taken == [] then Running
    else match taken[|taken| - 1]
      case None => Finished
      case Some(b) => if BatchFailed(b.elements).Some? then Died else Running
  }

  /** The consumer takes no item after a sentinel or after a batch that raised. */
  ghost predicate Orderly(taken: seq<Option<Batch>>)
  {
    forall j :: 0 <= j < |taken| - 1 ==> taken[j].Some? && BatchFailed(taken[j].value.elements).None?
  }

  /** The items whose files are written: all but a last batch that raised. */
  function WrittenItems(taken: seq<Option<Batch>>): seq<Option<Batch>>
  {
    if StatusAfter(taken) == Died then taken[..|taken| - 1] else taken
  }

  /**
   * Taking one more item while the consumer runs: the history stays
   * orderly, the item's batch joins the batches taken, and its files are
   * written unless it raised.
   */
  lemma TakeStep(taken: seq<Option<Batch>>, x: Option<Batch>)
    requires Orderly(taken) && StatusAfter(taken) == Running
    ensures Orderly(taken + [x])
    ensures WrittenItems(taken) == taken
    ensures Batches(taken + [x]) == Batches(taken) + (if x.Some? then [x.value] else [])
    ensures WrittenItems(taken + [x]) == (if x.Some? && BatchFailed(x.value.elements).Some? then taken else taken + [x])
  {
    var t := taken + [x];
    assert t[..|taken|] == taken;
    forall j | 0 <= j < |t| - 1 ensures t[j].Some? && BatchFailed(t[j].value.elements).None? {
      assert t[j] == taken[j];
    }
    if x.None? {
      assert Batches(taken) + [] == Batches(taken);
    }
  }

  /** A consumer that runs has not taken the sentinel, so while items wait, or the sentinel is still to come. */
  lemma RunningHasItems(taken: seq<Option<Batch>>, items: seq<Option<Batch>>, bs: seq<Batch>)
    requires taken + items == Published(bs) + [None] && StatusAfter(taken) == Running
    ensures items != []
  {
    assert |taken| + |items| == |bs| + 1;
    assert taken != [] ==> taken[|taken| - 1] == (Published(bs) + [None])[|taken| - 1];
  }

  /** Part of the published batches taken: they are the first ones, and the consumer has not finished. */
  lemma ConsumedPrefix(bs: seq<Batch>, taken: seq<Option<Batch>>)
    requires |taken| <= |bs| && taken == Published(bs)[..|taken|] && Orderly(taken)
    ensures Batches(taken) == bs[..|taken|] && StatusAfter(taken) != Finished
    ensures StatusAfter(taken) == Died ==>
              0 < |taken| && BatchFailed(bs[|taken| - 1].elements).Some?
              && forall j :: 0 <= j < |taken| - 1 ==> BatchFailed(bs[j].elements).None?
  {
    BatchesOfPublished(bs, |taken|);
    var ps := Published(bs);
    if taken != [] {
      var k := |taken| - 1;
      assert taken[k] == ps[k] == Some(bs[k]);
    }
    if StatusAfter(taken) == Died {
      forall j | 0 <= j < |taken| - 1 ensures BatchFailed(bs[j].elements).None? {
        assert taken[j] == ps[j] == Some(bs[j]);
      }
    }
  }

  /** Every published batch and the sentinel taken: the batches taken are all of them, and none raised. */
  lemma ConsumedAll(bs: seq<Batch>, taken: seq<Option<Batch>>)
    requires taken == Published(bs) + [None] && Orderly(taken)
    ensures Batches(taken) == bs && StatusAfter(taken) == Finished
    ensures forall b :: b in bs ==> BatchFailed(b.elements).None?
  {
    assert taken[..|taken| - 1] == Published(bs) == Published(bs)[..|bs|];
    BatchesOfPublished(bs, |bs|);
    assert bs[..|bs|] == bs;
    forall b | b in bs ensures BatchFailed(b.elements).None? {
      var p :| 0 <= p < |bs| && bs[p] == b;
      assert taken[p] == Some(b);
    }
  }

  // ---------------------------------------------------------------------
  // The script's state

  /**
   * A record whose `Status` has no `value` and whose `org_id` no later
   * record repeats leaves a summary entry with status `None`; joining that
   * group's folder raises a `TypeError`, so no summary file is written.
   */
  lemma NoStatusFailsSummary(collected: seq<SummaryEntry>, i: nat, yamlBase: string, jsonBase: string)
    requires i < |collected| && collected[i].status.Null?
    requires forall j :: i < j < |collected| ==> collected[j].orgId != collected[i].orgId
    ensures SummaryWrites(Group(OrderedDict.Values(UpsertAll([], collected))), yamlBase, jsonBase) == Fail(TypeError)
  {
    var s := UpsertAll([], collected);
    UpsertAllSpec([], collected, i);
    UpsertAllKeys([], collected);
    var p := OrderedDict.IndexOf(s, collected[i].orgId);
    OrderedDict.GetAt(s, p);
    var es := OrderedDict.Values(s);
    assert es[p] == collected[i];
    EveryEntryGrouped(es, p);
    var groups := Group(es);
    var q := OrderedDict.IndexOf(groups, GroupKey(es[p]));
    SummaryWritesFailure(groups, yamlBase, jsonBase);
  }

  /**
   * Once the sentinel is published, a consumer that stopped either took
   * everything, every batch succeeding, or died at the batch it took last.
   */
  lemma ConsumerStopped(bs: seq<Batch>, taken: seq<Option<Batch>>, items: seq<Option<Batch>>)
    requires taken + items == Published(bs) + [None] && Orderly(taken) && StatusAfter(taken) != Running
    ensures StatusAfter(taken) == Finished ==>
              items == [] && Batches(taken) == bs && forall b :: b in bs ==> BatchFailed(b.elements).None?
    ensures StatusAfter(taken) == Died ==>
              0 < |taken| <= |bs| && BatchFailed(bs[|taken| - 1].elements).Some?
  {
    TakePrefix(taken, items);
    if |taken| <= |bs| {
      TakeAppend(Published(bs), [None], |taken|);
      ConsumedPrefix(bs, taken);
    } else {
      assert taken == Published(bs) + [None];
      ConsumedAll(bs, taken);
    }
  }

  /**
   * When the producer has published every record and the sentinel, the
   * consumer finishes exactly when no batch fails, having then taken
   * everything and seen every record of the file.
   */
  lemma ConsumerEnd(events: seq<ParseEvent>, bs: seq<Batch>, taken: seq<Option<Batch>>, items: seq<Option<Batch>>)
    requires taken + items == Published(bs) + [None] && Orderly(taken) && StatusAfter(taken) != Running
    requires Flatten(bs) == Records(events, true)
    ensures StatusAfter(taken) == Finished <==> forall b :: b in bs ==> BatchFailed(b.elements).None?
    ensures StatusAfter(taken) == Finished ==> taken == Published(bs) + [None] && Flatten(Batches(taken)) == Records(events, true)
  {
    ConsumerStopped(bs, taken, items);
    if StatusAfter(taken) == Finished {
      assert taken + [] == taken;
    }
  }

  /**
   * What `preload_batches` has done when it returns (`hung`: when it never
   * does): it looked at `examined` events, no further than the one at which
   * the user stopped the script; the records among them are the published
   * batches followed by the `dropped` ones; the published batches are full
   * but for the last and carry cumulative counts; and the sentinel follows
   * them exactly when the producer was neither stopped nor hung, in which
   * case it read the whole file.
   */
  ghost predicate Produced(events: seq<ParseEvent>, stopAt: Option<nat>, batchSize: nat, bs: seq<Batch>, dropped: seq<Element>,
                           examined: nat, stopped: bool, hung: bool, puts: seq<Option<Batch>>)
  {
    examined <= StopEvent(stopAt, |events|) && Flatten(bs) + dropped == Records(events[..examined], true)
    && Sized(bs, batchSize) && Counted(bs) && (batchSize > 0 ==> |dropped| <= batchSize)
    && !(stopped && hung) && (stopped ==> stopAt.Some?)
    && (!stopped && !hung ==> examined == |events| && dropped == [] && puts == Published(bs) + [None])
    && (stopped || hung ==> puts == Published(bs))
  }

  /**
   * With a batch size of zero no batch ever fills up, so a producer that
   * runs to the end publishes every record in the one final batch, or
   * nothing when the file has no records.
   */
  lemma ZeroBatchSize(events: seq<ParseEvent>, stopAt: Option<nat>, bs: seq<Batch>, dropped: seq<Element>,
                      examined: nat, puts: seq<Option<Batch>>)
    requires Produced(events, stopAt, 0, bs, dropped, examined, false, false, puts)
    ensures var recs := Records(events, true);
            bs == (if recs == [] then [] else [Batch(recs, |recs|)])
  {
    var recs := Records(events, true);
    assert events[..examined] == events;
    assert Flatten(bs) + [] == Flatten(bs);
    if |bs| == 1 {
      assert bs[..1] == bs && bs[..0] == [];
      assert Flatten(bs) == bs[0].elements;
      assert bs[0] == Batch(recs, |recs|);
      assert bs == [bs[0]];
    }
  }

  /**
   * The producer after putting the final batch `batch` with retries: it is
   * published after `bs`, or, when the put gave up (stopped, only when the
   * flag can be set, or hung on a full queue), dropped.
   */
  ghost predicate Flushed(bs: seq<Batch>, batch: seq<Element>, batchSize: nat, canStop: bool, bs': seq<Batch>,
                          dropped: seq<Element>, r: PutResult, puts: seq<Option<Batch>>, queued: nat, consumer: Consumer)
  {
    Flatten(bs') + dropped == Flatten(bs) + batch
    && Sized(bs', batchSize) && Counted(bs') && puts == Published(bs') && (batchSize > 0 ==> |dropped| <= batchSize)
    && (r == Done ==> dropped == [])
    && (r != Done ==>
          dropped == batch && (r == Stopped || r == Hung) && (r == Stopped <==> canStop)
          && queued == QUEUE_SIZE && consumer != Running)
  }

  /** The final batch, once put, is published after the full ones. */
  lemma FlushDone(bs: seq<Batch>, batch: seq<Element>, orgCount: nat, batchSize: nat, canStop: bool,
                  puts: seq<Option<Batch>>, queued: nat, consumer: Consumer)
    requires batch != [] && Pending(bs, batch, orgCount, batchSize) && puts == Published(bs) + [Some(Batch(batch, orgCount))]
    ensures Flushed(bs, batch, batchSize, canStop, bs + [Batch(batch, orgCount)], [], Done, puts, queued, consumer)
  {
    var b := Batch(batch, orgCount);
    FlattenSnoc(bs, b);
    CountedSnoc(bs, b);
    SizedSnoc(bs, b, batchSize);
    PublishedSnoc(bs, b);
    assert Flatten(bs + [b]) + [] == Flatten(bs + [b]);
  }

  /** A put of the final batch that gives up drops it and publishes nothing more. */
  lemma FlushGivenUp(bs: seq<Batch>, batch: seq<Element>, orgCount: nat, batchSize: nat, canStop: bool, r: PutResult,
                     puts: seq<Option<Batch>>, queued: nat, consumer: Consumer)
    requires Pending(bs, batch, orgCount, batchSize) && puts == Published(bs)
    requires (r == Stopped || r == Hung) && (r == Stopped <==> canStop) && queued == QUEUE_SIZE && consumer != Running
    ensures Flushed(bs, batch, batchSize, canStop, bs, batch, r, puts, queued, consumer)
  {
    FullSized(bs, batchSize);
  }

  /**
   * The producer after looking at the first `i` events, none of them at or
   * past the one at which the user stops the script: their records are the
   * published batches followed by `rest`, and its state is `Loading`.
   */
  ghost predicate Loaded(events: seq<ParseEvent>, i: nat, stopAt: Option<nat>, batchSize: nat, bs: seq<Batch>, batch: seq<Element>,
                         orgCount: nat, rest: seq<Element>, r: PutResult, puts: seq<Option<Batch>>, queued: nat, consumer: Consumer)
  {
    i <= StopEvent(stopAt, |events|) && i <= |events| && Flatten(bs) + rest == Records(events[..i], true)
    && Loading(bs, batch, orgCount, rest, r, batchSize, stopAt.Some?, puts, queued, consumer)
  }

  /**
   * What the consumer has done when `main` ends (`hung`: when the producer
   * waits forever): it took a prefix of what was put, every item but the
   * last a succeeding batch, and nothing when processing is disabled. A
   * producer hangs on a full queue that no consumer empties any more. A
   * consumer that was neither stopped nor left behind by a hung producer
   * has finished, exactly when no batch fails, or died; when it finished
   * it took everything and saw every record of the file.
   */
  ghost predicate Consumed(events: seq<ParseEvent>, enable: bool, stopped: bool, hung: bool, bs: seq<Batch>,
                           puts: seq<Option<Batch>>, taken: seq<Option<Batch>>)
  {
    |taken| <= |puts| && taken == puts[..|taken|] && Orderly(taken) && (!enable ==> taken == [])
    && (hung ==> |puts| == |taken| + QUEUE_SIZE && (enable ==> StatusAfter(taken) == Died))
    && (enable && !stopped && !hung ==>
          StatusAfter(taken) != Running
          && (StatusAfter(taken) == Finished <==> forall b :: b in bs ==> BatchFailed(b.elements).None?)
          && (StatusAfter(taken) == Finished ==> taken == puts && Flatten(Batches(taken)) == Records(events, true)))
  }

  /** The producer's and the consumer's facts at the end of `main` combine into `Consumed`. */
  lemma RunConsumed(events: seq<ParseEvent>, stopAt: Option<nat>, batchSize: nat, bs: seq<Batch>, dropped: seq<Element>,
                    examined: nat, stopped: bool, hung: bool, enable: bool,
                    puts: seq<Option<Batch>>, taken: seq<Option<Batch>>, items: seq<Option<Batch>>)
    requires Produced(events, stopAt, batchSize, bs, dropped, examined, stopped, hung, puts)
    requires taken + items == puts && Orderly(taken) && (!enable ==> taken == [])
    requires hung ==> |items| == QUEUE_SIZE && (enable ==> StatusAfter(taken) != Running)
    requires enable && !stopped && !hung ==> StatusAfter(taken) != Running
    ensures Consumed(events, enable, stopped, hung, bs, puts, taken)
  {
    TakePrefix(taken, items);
    if hung && enable {
      ConsumedPrefix(bs, taken);
    }
    if enable && !stopped && !hung {
      assert Flatten(bs) + [] == Flatten(bs);
      assert events[..examined] == events;
      ConsumerEnd(events, bs, taken, items);
    }
  }

  /** What a `put` with retries comes to: still trying, done, given up on the stop flag, or waiting forever. */
  datatype PutResult = Waiting | Done | Stopped | Hung

  /**
   * The producer's state between events: still reading, with the records
   * `rest` of the batch being filled pending; or stopped (only when the flag
   * can be set) or hung on a full queue, holding the full batch `rest` it
   * could not put.
   */
  ghost predicate Loading(bs: seq<Batch>, batch: seq<Element>, orgCount: nat, rest: seq<Element>, r: PutResult,
                          batchSize: nat, canStop: bool, puts: seq<Option<Batch>>, queued: nat, consumer: Consumer)
  {
    puts == Published(bs)
    && (r == Done ==> rest == batch && Pending(bs, batch, orgCount, batchSize))
    && (r != Done ==>
          (r == Stopped || r == Hung) && (r == Stopped <==> canStop) && AllFull(bs, batchSize) && Counted(bs)
          && |rest| == batchSize && queued == QUEUE_SIZE && consumer != Running)
  }

  /** How the script ends: with an exit status, or waiting forever on a full queue. */
  datatype Outcome = Exit(status: int) | Hang

  /**
   * The script's globals: the role counters, `org_processed_count`, the
   * files written so far, `summary_data_global` and the two output bases;
   * `seen` is every record whose task has run and `collected` every summary
   * entry upserted, in order.
   */
  class Importer {
    var counts: RoleCounts
    var orgProcessedCount: nat
    var files: seq<FileWrite>
    var summary: seq<(Value, SummaryEntry)>
    const yamlBase: string
    const jsonBase: string
    ghost var seen: seq<Element>
    ghost var collected: seq<SummaryEntry>

    /** The counters and the processed count are those of the records seen; the summary holds the entries collected. */
    ghost predicate Valid()
      reads this
    {
      Tallied(counts, orgProcessedCount, seen) && summary == UpsertAll([], collected)
    }

    /** The records, entries and files are exactly those of the items the consumer has taken. */
    ghost predicate Drained(taken: seq<Option<Batch>>)
      reads this
    {
      Orderly(taken) && seen == Flatten(Batches(taken)) && collected == BatchesEntries(Batches(taken))
      && files == BatchesWrites(Batches(WrittenItems(taken)), yamlBase, jsonBase)
    }

    /** The state the script starts in, for output path `outputPath`. */
    constructor(outputPath: string)
      ensures Valid() && Drained([]) && summary == []
      ensures yamlBase == YamlBase(outputPath) && jsonBase == JsonBase(outputPath)
      ensures counts == RoleCounts([], 0) && orgProcessedCount == 0
    {
      counts := RoleCounts([], 0);
      orgProcessedCount := 0;
      files := [];
      summary := [];
      yamlBase := YamlBase(outputPath);
      jsonBase := JsonBase(outputPath);
      seen := [];
      collected := [];
    }

    /**
     * `generate_organisation_yaml`: the counters move once `Roles` is found,
     * the buffer gains the record's document, if any, at the end of its key's
     * list, and `org_processed_count` rises exactly when the pool task does not
     * exit.
     */
    method GenerateOrganisationYaml(org: Element, orgCount: int, buf: Buffer) returns (buf': Buffer, failure: Option<Failure>)
      requires Valid()
      modifies this
      ensures seen == old(seen) + [org] && collected == old(collected) && summary == old(summary) && files == old(files)
      ensures counts == ImportV5.CountOrganisation(old(counts), org)
      ensures buf' == Buffered(buf, Generated(org))
      ensures failure == FailureOf(Generated(org))
      ensures orgProcessedCount == old(orgProcessedCount) + (if failure.None? then 1 else 0)
      ensures Valid()
    {
      TalliedStep(counts, orgProcessedCount, seen, org);
      seen := seen + [org];
      var rolesElement := FindChild(org, "Roles");
      if rolesElement.None? {
        return buf, Some(MissingRoles);
      }
      var roleId := SelectPrimaryRole(rolesElement.value);
      counts := CountRole(counts, roleId);
      var r := BufferEntry(org, roleId);
      if r.Fail? {
        return buf, Some(r.failure);
      }
      var entry := r.value;
      buf' := buf;
      if entry.Some? {
        var (key, item) := entry.value;
        buf' := OrderedDict.AppendAt(buf, key, item);
      }
      failure := None;
      orgProcessedCount := orgProcessedCount + 1;
    }

    /** The pool tasks of one batch, run in batch order: the buffer they fill and the first failure among them. */
    method RunTasks(batch: seq<Element>, orgCount: nat) returns (batchYamlData: Buffer, failure: Option<Failure>)
      requires Valid()
      modifies this
      ensures seen == old(seen) + batch && files == old(files) && collected == old(collected) && summary == old(summary)
      ensures batchYamlData == BatchBuffer(batch, GenerateTask())
      ensures failure == BatchFailure(batch, GenerateTask())
      ensures Valid()
    {
      batchYamlData := [];
      failure := None;
      ghost var s0 := seen;
      for index := 0 to |batch|
        invariant seen == s0 + batch[..index] && files == old(files) && collected == old(collected) && summary == old(summary)
        invariant batchYamlData == BatchBuffer(batch[..index], GenerateTask())
        invariant failure == BatchFailure(batch[..index], GenerateTask())
        invariant Valid()
      {
        var elem := batch[index];
        TakeSnoc(batch, index);
        assert batch[..index + 1][..index] == batch[..index];
        var f;
        batchYamlData, f := GenerateOrganisationYaml(elem, orgCount - |batch| + index + 1, batchYamlData);
        if failure.None? {
          failure := f;
        }
        AppendAssoc(s0, batch[..index], [elem]);
      }
      assert batch[..|batch|] == batch;
    }

    /**
     * `process_batch_elements`: every task of the batch runs, in batch
     * order, and the first failure is raised; otherwise the buffer is copied
     * under JSON keys while the summary entry of each document is upserted,
     * the first document without one raising; otherwise every buffered
     * document is written under the YAML base and then under the JSON base.
     */
    method ProcessBatchElements(batch: seq<Element>, orgCount: nat) returns (failure: Option<Failure>)
      requires Valid()
      modifies this
      ensures seen == old(seen) + batch
      ensures failure == BatchFailed(batch)
      ensures collected == old(collected) + BatchEntries(batch)
      ensures files == old(files) + (if failure.None? then BatchWrites(BatchBuffer(batch, GenerateTask()), yamlBase, jsonBase) else [])
      ensures Valid()
    {
      var batchYamlData;
      ghost var c0 := collected;
      batchYamlData, failure := RunTasks(batch, orgCount);
      if failure.Some? {
        assert c0 + [] == c0;
        return;
      }
      ghost var docs := Documents(batchYamlData);
      var summary', batchJsonData, f := CollectBatch(summary, batchYamlData, yamlBase, jsonBase);
      UpsertAllAppend([], collected, Collected(docs));
      summary := summary';
      collected := collected + Collected(docs);
      if f.Some? {
        return f;
      }
      var yamlWrites := WriteBuffer(batchYamlData, Some(yamlBase), ".yaml");
      var jsonWrites := WriteBuffer(batchJsonData, Some(jsonBase), ".json");
      files := files + (yamlWrites + jsonWrites);
    }

    /**
     * One round of `process_batches_from_queue`: the next item is taken;
     * the sentinel ends the consumer, a batch is processed and, when it
     * raises, ends the consumer's thread.
     */
    method ConsumeOne(queue: Channel) returns (status: Consumer)
      requires Valid() && queue.Valid() && queue.items != [] && Drained(queue.taken) && StatusAfter(queue.taken) == Running
      modifies this, queue
      ensures Valid() && queue.Valid() && Drained(queue.taken) && status == StatusAfter(queue.taken)
      ensures queue.items == old(queue.items)[1..] && queue.taken == old(queue.taken) + [old(queue.items)[0]]
      ensures queue.puts == old(queue.puts)
    {
      ghost var t := queue.taken;
      ghost var done := Batches(t);
      var batchInfo := queue.Get();
      TakeStep(t, batchInfo);
      if batchInfo.None? {
        assert Batches(queue.taken) == done + [] == done;
        assert WrittenItems(queue.taken) == queue.taken;
        return Finished;
      }
      var b := batchInfo.value;
      FlattenSnoc(done, b);
      BatchesEntriesSnoc(done, b);
      BatchesWritesSnoc(done, b, yamlBase, jsonBase);
      var failure := ProcessBatchElements(b.elements, b.orgCount);
      if failure.Some? {
        assert WrittenItems(queue.taken) == t;
        status := Died;
      } else {
        assert Batches(WrittenItems(queue.taken)) == done + [b];
        status := Running;
      }
    }

    /**
     * The consumer's status agrees with what it has taken from the queue
     * of ten, and the state with the items taken; a consumer that was never
     * started has taken nothing.
     */
    ghost predicate Linked(queue: Channel, enable: bool, consumer: Consumer)
      reads this, queue
    {
      Valid() && queue.Valid() && queue.capacity == QUEUE_SIZE && Drained(queue.taken)
      && consumer == (if enable then StatusAfter(queue.taken) else Off)
      && (!enable ==> queue.taken == [])
    }

    /**
     * A `put` on the queue of ten, repeated while it is full: each time it
     * is full, a running consumer takes one item; with no consumer running,
     * the producer gives up when the user stops the script (`canStop`) or
     * otherwise waits forever.
     */
    method PutItem(queue: Channel, x: Option<Batch>, enable: bool, consumer: Consumer, canStop: bool)
      returns (consumer': Consumer, r: PutResult)
      requires Linked(queue, enable, consumer)
      modifies this, queue
      ensures Linked(queue, enable, consumer')
      ensures r == Done ==> queue.puts == old(queue.puts) + [x]
      ensures r != Done ==>
                queue.puts == old(queue.puts) && |queue.items| == QUEUE_SIZE && consumer' != Running
                && (r == Stopped || r == Hung) && (r == Stopped <==> canStop)
    {
      consumer' := consumer;
      r := Waiting;
      while r == Waiting
        invariant Linked(queue, enable, consumer')
        invariant r == Waiting ==> queue.puts == old(queue.puts)
        invariant r == Done ==> queue.puts == old(queue.puts) + [x]
        invariant r != Waiting && r != Done ==>
                    queue.puts == old(queue.puts) && |queue.items| == QUEUE_SIZE && consumer' != Running
                    && (r == Stopped || r == Hung) && (r == Stopped <==> canStop)
        decreases if r == Waiting then 1 else 0, |queue.items|
      {
        var ok := queue.TryPut(x);
        if ok {
          r := Done;
        } else if consumer' == Running {
          consumer' := ConsumeOne(queue);
        } else if canStop {
          r := Stopped;
        } else {
          r := Hung;
        }
      }
    }

    /**
     * One record seen by `preload_batches`: it joins the batch and is
     * counted; a batch that reaches `batch_size` is put on the queue, with
     * retries, and emptied. `rest` is what is not on the queue: the batch,
     * or the full batch given up on.
     */
    method Accept(queue: Channel, elem: Element, orgCount: nat, batch: seq<Element>, batchSize: nat, ghost bs: seq<Batch>,
                  enable: bool, consumer: Consumer, canStop: bool)
      returns (orgCount': nat, batch': seq<Element>, ghost bs': seq<Batch>, consumer': Consumer, r: PutResult, ghost rest: seq<Element>)
      requires Pending(bs, batch, orgCount, batchSize) && Linked(queue, enable, consumer) && queue.puts == Published(bs)
      modifies this, queue
      ensures Linked(queue, enable, consumer')
      ensures Flatten(bs') + rest == Flatten(bs) + batch + [elem]
      ensures Loading(bs', batch', orgCount', rest, r, batchSize, canStop, queue.puts, |queue.items|, consumer')
      ensures r != Done ==> bs' == bs && rest == batch + [elem]
    {
      batch' := batch + [elem];
      orgCount' := orgCount + 1;
      bs' := bs;
      consumer' := consumer;
      r := Done;
      rest := batch';
      AppendAssoc(Flatten(bs), batch, [elem]);
      if |batch'| == batchSize {
        var b := Batch(batch', orgCount');
        consumer', r := PutItem(queue, Some(b), enable, consumer, canStop);
        batch' := [];
        if r != Done {
          return;
        }
        PendingFlush(bs, rest, orgCount', batchSize);
        PublishedSnoc(bs, b);
        bs' := bs + [b];
        rest := [];
        assert Flatten(bs') + rest == Flatten(bs');
      }
    }

    /** The producer's state after `i` events, with the queue and the consumer in step. */
    ghost predicate Preloading(queue: Channel, enable: bool, consumer: Consumer, events: seq<ParseEvent>, i: nat, stopAt: Option<nat>,
                               batchSize: nat, bs: seq<Batch>, batch: seq<Element>, orgCount: nat, rest: seq<Element>, r: PutResult)
      reads this, queue
    {
      Linked(queue, enable, consumer) && Loaded(events, i, stopAt, batchSize, bs, batch, orgCount, rest, r, queue.puts, |queue.items|, consumer)
    }

    /**
     * One event of `preload_batches`: a record is accepted, anything else is
     * skipped (`rest0` is the pending batch before the event).
     */
    method Examine(queue: Channel, events: seq<ParseEvent>, i: nat, batch: seq<Element>, orgCount: nat, batchSize: nat,
                   ghost bs: seq<Batch>, ghost rest0: seq<Element>, enable: bool, consumer: Consumer, stopAt: Option<nat>)
      returns (consumer': Consumer, batch': seq<Element>, orgCount': nat, ghost bs': seq<Batch>, ghost rest: seq<Element>, r: PutResult)
      requires i < StopEvent(stopAt, |events|)
      requires Preloading(queue, enable, consumer, events, i, stopAt, batchSize, bs, batch, orgCount, rest0, Done)
      modifies this, queue
      ensures Preloading(queue, enable, consumer', events, i + 1, stopAt, batchSize, bs', batch', orgCount', rest, r)
    {
      var canStop := stopAt.Some?;
      var event := events[i];
      RecordsStep(events, i, true);
      if event.kind == End && event.element.tag == "Organisation" {
        orgCount', batch', bs', consumer', r, rest := Accept(queue, event.element, orgCount, batch, batchSize, bs, enable, consumer, canStop);
      } else {
        orgCount', batch', bs', consumer', r, rest := orgCount, batch, bs, consumer, Done, batch;
      }
    }

    /**
     * The loop of `preload_batches`: until the stop flag is seen or a put
     * gives up, records are put on the queue in batches of exactly
     * `batch_size`.
     */
    method PreloadRecords(queue: Channel, events: seq<ParseEvent>, batchSize: nat, stopAt: Option<nat>, enable: bool, consumer: Consumer)
      returns (consumer': Consumer, batch: seq<Element>, orgCount: nat, ghost bs: seq<Batch>, ghost rest: seq<Element>, examined: nat, r: PutResult)
      requires Linked(queue, enable, consumer) && queue.puts == []
      modifies this, queue
      ensures Linked(queue, enable, consumer')
      ensures Loaded(events, examined, stopAt, batchSize, bs, batch, orgCount, rest, r, queue.puts, |queue.items|, consumer')
      ensures r == Done ==> examined == |events| || StopSet(stopAt, examined)
    {
      batch := [];
      orgCount := 0;
      bs := [];
      rest := [];
      consumer' := consumer;
      r := Done;
      var i := 0;
      assert Published([]) == [];
      while i < |events| && !StopSet(stopAt, i) && r == Done
        invariant Preloading(queue, enable, consumer', events, i, stopAt, batchSize, bs, batch, orgCount, rest, r)
      {
        consumer', batch, orgCount, bs, rest, r := Examine(queue, events, i, batch, orgCount, batchSize, bs, rest, enable, consumer', stopAt);
        i := i + 1;
      }
      examined := i;
    }

    /** The last, partly filled batch of `preload_batches`, put with retries. */
    method PutRemainder(queue: Channel, batch: seq<Element>, orgCount: nat, batchSize: nat, ghost bs: seq<Batch>,
                        enable: bool, consumer: Consumer, canStop: bool)
      returns (consumer': Consumer, ghost bs': seq<Batch>, ghost dropped: seq<Element>, r: PutResult)
      requires batch != [] && Pending(bs, batch, orgCount, batchSize)
      requires Linked(queue, enable, consumer) && queue.puts == Published(bs)
      modifies this, queue
      ensures Linked(queue, enable, consumer')
      ensures Flushed(bs, batch, batchSize, canStop, bs', dropped, r, queue.puts, |queue.items|, consumer')
    {
      var b := Batch(batch, orgCount);
      consumer', r := PutItem(queue, Some(b), enable, consumer, canStop);
      if r != Done {
        bs', dropped := bs, batch;
        FlushGivenUp(bs, batch, orgCount, batchSize, canStop, r, queue.puts, |queue.items|, consumer');
      } else {
        bs', dropped := bs + [b], [];
        FlushDone(bs, batch, orgCount, batchSize, canStop, queue.puts, |queue.items|, consumer');
      }
    }

    /**
     * `preload_batches`: the records in batches of exactly `batch_size`;
     * the remainder is put when the stop flag is still clear after the
     * loop, and then the sentinel, which is put without retries. A full
     * batch given up on when the user stops the script is dropped, like
     * the remainder when the flag is set; `hung` says the producer waits
     * forever on a full queue.
     */
    method PreloadBatches(queue: Channel, events: seq<ParseEvent>, batchSize: nat, stopAt: Option<nat>, enable: bool, consumer: Consumer)
      returns (consumer': Consumer, ghost bs: seq<Batch>, ghost dropped: seq<Element>, ghost examined: nat, stopped: bool, hung: bool)
      requires Linked(queue, enable, consumer) && queue.puts == []
      modifies this, queue
      ensures Linked(queue, enable, consumer')
      ensures Produced(events, stopAt, batchSize, bs, dropped, examined, stopped, hung, queue.puts)
      ensures hung ==> |queue.items| == QUEUE_SIZE && consumer' != Running
    {
      var batch, orgCount, r, i;
      consumer', batch, orgCount, bs, dropped, i, r := PreloadRecords(queue, events, batchSize, stopAt, enable, consumer);
      examined := i;
      if r != Done {
        stopped := r == Stopped;
        hung := r == Hung;
        FullSized(bs, batchSize);
        return;
      }
      stopped := StopSet(stopAt, i);
      hung := false;
      if stopped {
        FullSized(bs, batchSize);
        return;
      }
      if batch != [] {
        consumer', bs, dropped, r := PutRemainder(queue, batch, orgCount, batchSize, bs, enable, consumer', stopAt.Some?);
        if r != Done {
          stopped := r == Stopped;
          hung := r == Hung;
          return;
        }
      } else {
        FullSized(bs, batchSize);
      }
      consumer', r := PutItem(queue, None, enable, consumer', false);
      hung := r == Hung;
    }

    /** After the sentinel is on the queue, the consumer takes items until it finishes or dies. */
    method Drain(queue: Channel, ghost bs: seq<Batch>) returns (consumer: Consumer)
      requires Linked(queue, true, Running) && queue.puts == Published(bs) + [None]
      modifies this, queue
      ensures Linked(queue, true, consumer) && consumer != Running && queue.puts == old(queue.puts)
    {
      consumer := Running;
      while consumer == Running
        invariant Linked(queue, true, consumer) && queue.puts == old(queue.puts)
        decreases |queue.items|
      {
        RunningHasItems(queue.taken, queue.items, bs);
        consumer := ConsumeOne(queue);
      }
    }

    /**
     * `write_summary_files`: nothing for an empty summary; otherwise every
     * group's folders are made before any file is written, so a group whose
     * status or role id is not a string raises a `TypeError` and no summary
     * file is written at all.
     */
    method WriteSummary() returns (ok: bool)
      requires Valid()
      modifies this
      ensures var r := SummaryWrites(Group(OrderedDict.Values(summary)), yamlBase, jsonBase);
              (ok <==> r.Ok?) && files == old(files) + (if ok then r.value else [])
      ensures summary == old(summary) && seen == old(seen) && collected == old(collected) && Valid()
    {
      if summary == [] {
        EmptySummary(yamlBase, jsonBase);
        assert OrderedDict.Values(summary) == [];
        assert files == files + [];
        return true;
      }
      var writes, failure := WriteSummaryFiles(summary, yamlBase, jsonBase);
      if failure.Some? {
        assert files == files + [];
        return false;
      }
      files := files + writes;
      ok := true;
    }

    /**
     * `main`: the producer and, when processing is enabled, the consumer
     * share a queue of `QUEUE_SIZE`; the summary files are written once
     * both are done, and an exception they raise ends the script with
     * status 1. The two threads run on one fixed schedule: the consumer
     * takes one item whenever the producer finds the queue full, and
     * drains the queue once the producer has put the sentinel. `stopAt`
     * is the event at which the user presses Ctrl+C, if ever.
     */
    method Run(events: seq<ParseEvent>, stopAt: Option<nat>, enable: bool, batchSize: nat)
      returns (outcome: Outcome, ghost bs: seq<Batch>, ghost dropped: seq<Element>, ghost examined: nat, stopped: bool,
               hung: bool, ghost puts: seq<Option<Batch>>, ghost taken: seq<Option<Batch>>)
      requires Valid() && Drained([])
      modifies this
      ensures Valid()
      ensures Produced(events, stopAt, batchSize, bs, dropped, examined, stopped, hung, puts) && (hung <==> outcome == Hang)
      ensures Consumed(events, enable, stopped, hung, bs, puts, taken)
      ensures seen == Flatten(Batches(taken)) && collected == BatchesEntries(Batches(taken))
      ensures hung ==> files == BatchesWrites(Batches(WrittenItems(taken)), yamlBase, jsonBase)
      ensures !hung ==>
                var r := SummaryWrites(Group(OrderedDict.Values(summary)), yamlBase, jsonBase);
                outcome == Exit(if enable && r.Fail? then 1 else 0)
                && files == BatchesWrites(Batches(WrittenItems(taken)), yamlBase, jsonBase) + (if enable && r.Ok? then r.value else [])
    {
      var queue := new Channel(QUEUE_SIZE);
      var consumer := if enable then Running else Off;
      consumer, bs, dropped, examined, stopped, hung := PreloadBatches(queue, events, batchSize, stopAt, enable, consumer);
      puts := queue.puts;
      ghost var items;
      if hung {
        outcome := Hang;
        taken := queue.taken;
        items := queue.items;
      } else {
        outcome, taken, items := Conclude(queue, bs, stopped, enable, consumer);
      }
      RunConsumed(events, stopAt, batchSize, bs, dropped, examined, stopped, hung, enable, puts, taken, items);
    }

    /**
     * The rest of `main` once the producer is done: the consumer, unless
     * the user stopped the script, drains the queue, and then the summary
     * files are written when processing is enabled.
     */
    method Conclude(queue: Channel, ghost bs: seq<Batch>, stopped: bool, enable: bool, consumer: Consumer)
      returns (outcome: Outcome, ghost taken: seq<Option<Batch>>, ghost items: seq<Option<Batch>>)
      requires Linked(queue, enable, consumer)
      requires queue.puts == Published(bs) + (if stopped then [] else [None])
      modifies this, queue
      ensures Valid() && taken + items == queue.puts && queue.puts == old(queue.puts)
      ensures Orderly(taken) && (!enable ==> taken == [])
      ensures seen == Flatten(Batches(taken)) && collected == BatchesEntries(Batches(taken))
      ensures enable && !stopped ==> StatusAfter(taken) != Running
      ensures var r := SummaryWrites(Group(OrderedDict.Values(summary)), yamlBase, jsonBase);
              outcome == Exit(if enable && r.Fail? then 1 else 0)
              && files == BatchesWrites(Batches(WrittenItems(taken)), yamlBase, jsonBase) + (if enable && r.Ok? then r.value else [])
    {
      var consumer' := consumer;
      if enable && !stopped && consumer == Running {
        consumer' := Drain(queue, bs);
      }
      taken := queue.taken;
      items := queue.items;
      var ok := true;
      if enable {
        ok := WriteSummary();
      } else {
        assert files == files + [];
      }
      outcome := Exit(if ok then 0 else 1);
    }
  }
}
