/**
 * import-v8.py: import-v5.py's per-record processing, plus a count of the
 * records processed to the end, run over batches of `batch_size` records.
 * Each full batch, and the final partial one, is handed to a fresh thread
 * pool, every record of it with the count at the end of its batch; the
 * pool's results are never read, so a failing task writes nothing, is not
 * counted as processed, and the run carries on.
 */
module ImportV8 {
  import opened Wrappers
  import opened Xml
  import opened PyText
  import opened Classify
  import opened Batching
  import opened Output
  import opened ImportV5

  /** `batch_size` */
  const BATCH_SIZE: nat := 1000

  /** The number of records whose `process_organisation` runs to its end. */
  function Succeeded(orgs: seq<Element>, base: string): nat
  {
    if orgs == [] then 0
    else Succeeded(orgs[..|orgs| - 1], base) + (if OrganisationFile(orgs[|orgs| - 1], base).Ok? then 1 else 0)
  }

  lemma {:induction false} SucceededAppend(orgs: seq<Element>, more: seq<Element>, base: string)
    ensures Succeeded(orgs + more, base) == Succeeded(orgs, base) + Succeeded(more, base)
  {
    if more == [] {
      assert orgs + more == orgs;
    } else {
      SucceededAppend(orgs, more[..|more| - 1], base);
      assert (orgs + more)[..|orgs + more| - 1] == orgs + more[..|more| - 1];
    }
  }

  lemma SucceededSnoc(orgs: seq<Element>, org: Element, base: string)
    ensures Succeeded(orgs + [org], base) == Succeeded(orgs, base) + (if OrganisationFile(org, base).Ok? then 1 else 0)
  {
    assert (orgs + [org])[..|orgs|] == orgs;
  }

  /**
   * `org_processed_count` never runs ahead of the role counters, which never
   * run ahead of the records: a record without `Roles` is neither counted
   * nor processed, and one whose write fails is counted but not processed.
   */
  lemma {:induction false} ProcessedBound(orgs: seq<Element>, base: string)
    ensures Succeeded(orgs, base) <= WithRoles(orgs) <= |orgs|
    ensures (forall i :: 0 <= i < |orgs| ==> OrganisationFile(orgs[i], base) != Fail(TypeError))
            ==> Succeeded(orgs, base) == WithRoles(orgs)
  {
    if orgs != [] {
      var init := orgs[..|orgs| - 1];
      ProcessedBound(init, base);
      OrganisationFileSpec(orgs[|orgs| - 1], base);
      if forall i :: 0 <= i < |orgs| ==> OrganisationFile(orgs[i], base) != Fail(TypeError) {
        assert forall i :: 0 <= i < |init| ==> OrganisationFile(init[i], base) != Fail(TypeError) by {
          forall i | 0 <= i < |init| ensures OrganisationFile(init[i], base) != Fail(TypeError) {
            assert init[i] == orgs[i];
          }
        }
      }
    }
  }

  /** Counters, files and processed count that are those of `seen`. */
  ghost predicate Consistent(counts: RoleCounts, files: seq<FileWrite>, processed: nat, seen: seq<Element>, base: string)
  {
    counts == CountAll(RoleCounts([], 0), seen) && files == Written(TaskFiles(seen, FileTask(base)))
    && processed == Succeeded(seen, base)
  }

  /** One more record keeps the state consistent. */
  lemma ConsistentStep(counts: RoleCounts, files: seq<FileWrite>, processed: nat, seen: seq<Element>, org: Element, base: string)
    requires Consistent(counts, files, processed, seen, base)
    ensures Consistent(CountOrganisation(counts, org), files + Emitted(Swallowed(OrganisationFile(org, base))),
                       processed + (if OrganisationFile(org, base).Ok? then 1 else 0), seen + [org], base)
  {
    RunStep(RoleCounts([], 0), seen, org, base);
    SucceededSnoc(seen, org, base);
  }

  /**
   * The script's globals: role counters, files written,
   * `org_processed_count` and the output directory; `seen` is every record
   * handed to `process_organisation` so far.
   */
  class Importer {
    var counts: RoleCounts
    var files: seq<FileWrite>
    var orgProcessedCount: nat
    const base: string
    ghost var seen: seq<Element>

    /** The counters, files and processed count are those of the records seen. */
    ghost predicate Valid()
      reads this
    {
      Consistent(counts, files, orgProcessedCount, seen, base)
    }

    constructor(base: string)
      ensures Valid() && seen == [] && this.base == base
      ensures counts == RoleCounts([], 0) && files == [] && orgProcessedCount == 0
    {
      counts := RoleCounts([], 0);
      files := [];
      orgProcessedCount := 0;
      this.base := base;
      seen := [];
    }

    /**
     * `process_organisation`: as in import-v5.py, and the processed count
     * rises by one exactly when the pool task does not fail.
     */
    method ProcessOrganisation(org: Element, orgCount: nat) returns (failure: Option<Failure>)
      requires Valid()
      modifies this
      ensures seen == old(seen) + [org]
      ensures counts == CountOrganisation(old(counts), org)
      ensures files == old(files) + Emitted(Swallowed(OrganisationFile(org, base)))
      ensures failure == FailureOf(OrganisationFile(org, base))
      ensures orgProcessedCount == old(orgProcessedCount) + (if failure.None? then 1 else 0)
      ensures Valid()
    {
      ConsistentStep(counts, files, orgProcessedCount, seen, org, base);
      seen := seen + [org];
      var rolesElement := FindChild(org, "Roles");
      if rolesElement.None? {
        return Some(MissingRoles);
      }
      var roleId := SelectPrimaryRole(rolesElement.value);
      counts := CountRole(counts, roleId);
      var outcome := WriteOrganisation(org, roleId, base);
      files := files + Emitted(Swallowed(outcome));
      failure := FailureOf(outcome);
      if outcome.Ok? {
        orgProcessedCount := orgProcessedCount + 1;
      }
    }

    /**
     * `process_batch_elements`: every record of the batch is run, in order,
     * with the batch's count; the ordinal logged for the record at index
     * `j` is `org_count - len(batch) + j + 1`.
     */
    method ProcessBatchElements(batch: seq<Element>, orgCount: nat) returns (ordinals: seq<int>)
      requires Valid()
      modifies this
      ensures Valid() && seen == old(seen) + batch
      ensures |ordinals| == |batch| && forall j :: 0 <= j < |batch| ==> ordinals[j] == orgCount - |batch| + j + 1
    {
      ordinals := [];
      for index := 0 to |batch|
        invariant Valid() && seen == old(seen) + batch[..index]
        invariant |ordinals| == index && forall j :: 0 <= j < index ==> ordinals[j] == orgCount - |batch| + j + 1
      {
        var elem := batch[index];
        ordinals := ordinals + [orgCount - |batch| + index + 1];
        TakeSnoc(batch, index);
        var _ := ProcessOrganisation(elem, orgCount);
        AppendAssoc(old(seen), batch[..index], [elem]);
      }
      assert batch[..|batch|] == batch;
    }

    /** The state `process_batch` keeps between records. */
    ghost predicate Progress(orgCount: nat, batch: seq<Element>, tasks: seq<(Element, nat)>, bs: seq<Batch>,
                             batchSize: nat, s0: seq<Element>)
      reads this
    {
      Pending(bs, batch, orgCount, batchSize) && tasks == Numbered(bs) && seen == s0 + Flatten(bs)
    }

    /** Handing a batch to `process_batch_elements` publishes it. */
    method Flush(batch: seq<Element>, orgCount: nat, tasks: seq<(Element, nat)>, ghost bs: seq<Batch>,
                 ghost s0: seq<Element>)
      returns (tasks': seq<(Element, nat)>, ghost bs': seq<Batch>)
      requires Counted(bs) && orgCount == |Flatten(bs)| + |batch| && tasks == Numbered(bs)
      requires Valid() && seen == s0 + Flatten(bs)
      modifies this
      ensures bs' == bs + [Batch(batch, orgCount)] && Counted(bs') && Flatten(bs') == Flatten(bs) + batch
      ensures tasks' == Numbered(bs') && Valid() && seen == s0 + Flatten(bs')
    {
      var _ := ProcessBatchElements(batch, orgCount);
      var b := Batch(batch, orgCount);
      FlattenSnoc(bs, b);
      CountedSnoc(bs, b);
      NumberedSnoc(bs, b);
      AppendAssoc(s0, Flatten(bs), batch);
      tasks' := tasks + WithCount(batch, orgCount);
      bs' := bs + [b];
    }

    /**
     * One record seen by `process_batch`: it joins the batch and is counted;
     * a batch that reaches exactly `batch_size` is processed and emptied.
     */
    method Accept(elem: Element, orgCount: nat, batch: seq<Element>, tasks: seq<(Element, nat)>, batchSize: nat,
                  ghost bs: seq<Batch>, ghost s0: seq<Element>)
      returns (orgCount': nat, batch': seq<Element>, tasks': seq<(Element, nat)>, ghost bs': seq<Batch>)
      requires batchSize > 0 && Valid() && Progress(orgCount, batch, tasks, bs, batchSize, s0)
      modifies this
      ensures Valid() && Progress(orgCount', batch', tasks', bs', batchSize, s0)
      ensures Flatten(bs') + batch' == Flatten(bs) + batch + [elem]
    {
      batch' := batch + [elem];
      orgCount' := orgCount + 1;
      tasks', bs' := tasks, bs;
      if |batch'| == batchSize {
        PendingFlush(bs, batch', orgCount', batchSize);
        tasks', bs' := Flush(batch', orgCount', tasks, bs, s0);
        batch' := [];
        assert Flatten(bs') + batch' == Flatten(bs');
      } else {
        AppendAssoc(Flatten(bs), batch, [elem]);
      }
    }

    /**
     * The loop of `process_batch`: full batches are processed as they fill
     * up; the records after the last full batch are left in `batch`.
     */
    method ReadBatches(events: seq<ParseEvent>, batchSize: nat)
      returns (orgCount: nat, batch: seq<Element>, tasks: seq<(Element, nat)>, ghost bs: seq<Batch>)
      requires batchSize > 0 && Valid()
      modifies this
      ensures Flatten(bs) + batch == Records(events, false)
      ensures Valid() && Progress(orgCount, batch, tasks, bs, batchSize, old(seen))
    {
      batch := [];
      orgCount := 0;
      tasks := [];
      bs := [];
      ghost var s0 := seen;
      assert seen == s0 + Flatten(bs);
      for i := 0 to |events|
        invariant Flatten(bs) + batch == Records(events[..i], false)
        invariant Valid() && Progress(orgCount, batch, tasks, bs, batchSize, s0)
      {
        var event := events[i];
        var elem := event.element;
        RecordsStep(events, i, false);
        if event.kind == End && EndsWith(elem.tag, "Organisation") {
          orgCount, batch, tasks, bs := Accept(elem, orgCount, batch, tasks, batchSize, bs, s0);
        }
      }
      assert events[..|events|] == events;
    }

    /**
     * `process_batch`: every record is handed on exactly once, in stream
     * order, with the count at the end of its batch; the final partial
     * batch is processed too.
     */
    method ProcessBatch(events: seq<ParseEvent>, batchSize: nat) returns (tasks: seq<(Element, nat)>)
      requires batchSize > 0 && Valid()
      modifies this
      ensures Valid() && seen == old(seen) + Records(events, false)
      ensures var recs := Records(events, false);
              |tasks| == |recs|
              && (forall p :: 0 <= p < |recs| ==> tasks[p].0 == recs[p] && tasks[p].1 == BatchEnd(p, batchSize, |recs|))
    {
      var orgCount, batch;
      ghost var bs;
      orgCount, batch, tasks, bs := ReadBatches(events, batchSize);
      if batch != [] {
        ghost var bs0 := bs;
        tasks, bs := Flush(batch, orgCount, tasks, bs, old(seen));
        SizedSnoc(bs0, Batch(batch, orgCount), batchSize);
      } else {
        assert Flatten(bs) + batch == Flatten(bs);
      }
      assert Flatten(bs) == Records(events, false);
      NumberedSpec(bs, batchSize);
    }
  }
}
