/**
 * import-v3.py: records are collected into batches of `batch_size`; when a
 * batch is full each of its records is processed, in order, with the count
 * of records read so far, and the last partial batch is processed with the
 * final count. `process_organisation` is import-v1.py's loop body again.
 */
module ImportV3 {
  import opened Wrappers
  import opened PyText
  import opened Xml
  import opened Batching
  import opened Output
  import ImportV1

  /** `batch_size` */
  const BATCH_SIZE: nat := 100

  /**
   * `for org_elem in batch: process_organisation(org_elem, org_count)`, the
   * loop the source writes twice: every record of the batch with the same
   * count, in order.
   */
  method ProcessBatch(batch: seq<Element>, orgCount: nat, outputDirectory: string)
    returns (processed: seq<(Element, nat)>, files: seq<FileWrite>)
    ensures processed == WithCount(batch, orgCount)
    ensures files == Written(ImportV1.OrganisationFiles(batch, outputDirectory))
  {
    processed := [];
    files := [];
    for j := 0 to |batch|
      invariant processed == WithCount(batch[..j], orgCount)
      invariant files == Written(ImportV1.OrganisationFiles(batch[..j], outputDirectory))
    {
      WithCountSnoc(batch[..j], batch[j], orgCount);
      var file := ImportV1.OrganisationFile(batch[j], outputDirectory);
      assert batch[..j + 1] == batch[..j] + [batch[j]];
      ImportV1.OrganisationFilesSnoc(batch[..j], batch[j], outputDirectory);
      WrittenSnoc(ImportV1.OrganisationFiles(batch[..j], outputDirectory), file);
      processed := processed + [(batch[j], orgCount)];
      if file.Some? {
        files := files + [file.value];
      }
    }
    assert batch[..|batch|] == batch;
  }

  /**
   * Processing a batch publishes it: the numbered records and the files
   * grow by the batch's, and the counts stay cumulative.
   */
  method Flush(ghost bs: seq<Batch>, batch: seq<Element>, orgCount: nat, processed: seq<(Element, nat)>,
               files: seq<FileWrite>, outputDirectory: string)
    returns (processed': seq<(Element, nat)>, files': seq<FileWrite>, ghost bs': seq<Batch>)
    requires Counted(bs) && orgCount == |Flatten(bs)| + |batch|
    requires processed == Numbered(bs) && files == Written(ImportV1.OrganisationFiles(Flatten(bs), outputDirectory))
    ensures bs' == bs + [Batch(batch, orgCount)] && Counted(bs') && Flatten(bs') == Flatten(bs) + batch
    ensures processed' == Numbered(bs') && files' == Written(ImportV1.OrganisationFiles(Flatten(bs'), outputDirectory))
  {
    var more, written := ProcessBatch(batch, orgCount, outputDirectory);
    var b := Batch(batch, orgCount);
    NumberedSnoc(bs, b);
    FlattenSnoc(bs, b);
    CountedSnoc(bs, b);
    ImportV1.OrganisationFilesAppend(Flatten(bs), batch, outputDirectory);
    WrittenAppend(ImportV1.OrganisationFiles(Flatten(bs), outputDirectory), ImportV1.OrganisationFiles(batch, outputDirectory));
    processed' := processed + more;
    files' := files + written;
    bs' := bs + [b];
  }

  /** The state the main loop keeps between records. */
  ghost predicate Progress(orgCount: nat, batch: seq<Element>, processed: seq<(Element, nat)>, files: seq<FileWrite>,
                           bs: seq<Batch>, batchSize: nat, outputDirectory: string)
  {
    Pending(bs, batch, orgCount, batchSize)
    && processed == Numbered(bs)
    && files == Written(ImportV1.OrganisationFiles(Flatten(bs), outputDirectory))
  }

  /**
   * One record seen: it joins the batch and is counted; a batch that
   * reaches `batch_size` is processed and emptied.
   */
  method Accept(elem: Element, orgCount: nat, batch: seq<Element>, processed: seq<(Element, nat)>,
                files: seq<FileWrite>, ghost bs: seq<Batch>, batchSize: nat, outputDirectory: string)
    returns (orgCount': nat, batch': seq<Element>, processed': seq<(Element, nat)>, files': seq<FileWrite>,
             ghost bs': seq<Batch>)
    requires batchSize > 0 && Progress(orgCount, batch, processed, files, bs, batchSize, outputDirectory)
    ensures Progress(orgCount', batch', processed', files', bs', batchSize, outputDirectory)
    ensures Flatten(bs') + batch' == Flatten(bs) + batch + [elem]
  {
    batch' := batch + [elem];
    orgCount' := orgCount + 1;
    processed', files', bs' := processed, files, bs;
    if |batch'| >= batchSize {
      processed', files', bs' := Flush(bs, batch', orgCount', processed, files, outputDirectory);
      assert AllFull(bs', batchSize) by {
        forall k | 0 <= k < |bs'| ensures |bs'[k].elements| == batchSize {
          if k < |bs| {
            assert bs'[k] == bs[k];
          }
        }
      }
      batch' := [];
      assert Flatten(bs') + batch' == Flatten(bs');
    } else {
      assert Flatten(bs) + batch' == Flatten(bs) + batch + [elem];
    }
  }

  /**
   * The main loop: the full batches are processed as they fill up, and the
   * records after the last full batch are still waiting in `batch`.
   */
  method ReadBatches(events: seq<ParseEvent>, batchSize: nat, outputDirectory: string)
    returns (orgCount: nat, batch: seq<Element>, processed: seq<(Element, nat)>, files: seq<FileWrite>,
             ghost bs: seq<Batch>)
    requires batchSize > 0
    ensures Flatten(bs) + batch == Records(events, false)
    ensures Progress(orgCount, batch, processed, files, bs, batchSize, outputDirectory)
  {
    orgCount := 0;
    processed := [];
    files := [];
    batch := [];
    bs := [];
    for i := 0 to |events|
      invariant Flatten(bs) + batch == Records(events[..i], false)
      invariant Progress(orgCount, batch, processed, files, bs, batchSize, outputDirectory)
    {
      var event := events[i];
      var elem := event.element;
      RecordsStep(events, i, false);
      if event.kind == End && EndsWith(elem.tag, "Organisation") {
        orgCount, batch, processed, files, bs := Accept(elem, orgCount, batch, processed, files, bs, batchSize, outputDirectory);
      }
    }
    assert events[..|events|] == events;
  }

  /**
   * The main loop and the final flush: every record is processed exactly
   * once, in stream order; the record at position `p` is processed with the
   * count at the end of its batch, `min((p / batch_size + 1) * batch_size,
   * n)`; and the files are those import-v1.py writes for the same stream.
   */
  method Run(events: seq<ParseEvent>, batchSize: nat, outputDirectory: string)
    returns (orgCount: nat, processed: seq<(Element, nat)>, files: seq<FileWrite>)
    requires batchSize > 0
    ensures orgCount == |Records(events, false)| && |processed| == orgCount
    ensures forall p :: 0 <= p < orgCount ==>
              processed[p].0 == Records(events, false)[p] && processed[p].1 == BatchEnd(p, batchSize, orgCount)
    ensures files == Written(ImportV1.OrganisationFiles(Records(events, false), outputDirectory))
  {
    var batch;
    ghost var bs;
    orgCount, batch, processed, files, bs := ReadBatches(events, batchSize, outputDirectory);
    if batch != [] {
      ghost var bs0 := bs;
      processed, files, bs := Flush(bs, batch, orgCount, processed, files, outputDirectory);
      SizedSnoc(bs0, Batch(batch, orgCount), batchSize);
    } else {
      assert Flatten(bs) + batch == Flatten(bs);
    }
    assert Flatten(bs) == Records(events, false);
    NumberedSpec(bs, batchSize);
  }
}
