/**
 * import-v2.py: the main loop counts the records and submits one
 * `process_organisation(elem, org_count)` task per record to a thread pool,
 * then waits for every task. `process_organisation` is the body of
 * import-v1.py's loop, unchanged, so its file is `ImportV1.OrganisationFile`.
 * The pool is modelled by running the pool tasks one after another in
 * submission order.
 */
module ImportV2 {
  import opened Wrappers
  import opened PyText
  import opened Xml
  import opened Batching
  import opened Output
  import ImportV1

  /**
   * The records numbered from one, as the pool tasks receive them: the loop
   * increments `org_count` before each submission.
   */
  method Submit(events: seq<ParseEvent>) returns (orgCount: nat, tasks: seq<(Element, nat)>)
    ensures orgCount == |Records(events, false)| && |tasks| == orgCount
    ensures forall i :: 0 <= i < |tasks| ==> tasks[i] == (Records(events, false)[i], i + 1)
  {
    orgCount := 0;
    tasks := [];
    for i := 0 to |events|
      invariant orgCount == |Records(events[..i], false)| && |tasks| == orgCount
      invariant forall j :: 0 <= j < |tasks| ==> tasks[j] == (Records(events[..i], false)[j], j + 1)
    {
      var event := events[i];
      RecordsStep(events, i, false);
      if event.kind == End && EndsWith(event.element.tag, "Organisation") {
        orgCount := orgCount + 1;
        tasks := tasks + [(event.element, orgCount)];
      }
    }
    assert events[..|events|] == events;
  }

  /** `future.result()` for each task in turn: each record's file, in record order. */
  method Complete(tasks: seq<(Element, nat)>, outputDirectory: string) returns (files: seq<FileWrite>)
    ensures files == Written(ImportV1.OrganisationFiles(seq(|tasks|, i requires 0 <= i < |tasks| => tasks[i].0), outputDirectory))
  {
    files := [];
    ghost var orgs := seq(|tasks|, i requires 0 <= i < |tasks| => tasks[i].0);
    for i := 0 to |tasks|
      invariant files == Written(ImportV1.OrganisationFiles(orgs[..i], outputDirectory))
    {
      var file := ImportV1.OrganisationFile(tasks[i].0, outputDirectory);
      assert orgs[..i + 1] == orgs[..i] + [tasks[i].0];
      ImportV1.OrganisationFilesSnoc(orgs[..i], tasks[i].0, outputDirectory);
      WrittenSnoc(ImportV1.OrganisationFiles(orgs[..i], outputDirectory), file);
      if file.Some? {
        files := files + [file.value];
      }
    }
    assert orgs[..|tasks|] == orgs;
  }

  /**
   * The whole run: `org_count` is the number of records, task `i` carries
   * record `i` and the ordinal `i + 1`, and the files are those import-v1.py
   * writes for the same stream.
   */
  method Run(events: seq<ParseEvent>, outputDirectory: string)
    returns (orgCount: nat, tasks: seq<(Element, nat)>, files: seq<FileWrite>)
    ensures orgCount == |Records(events, false)| && |tasks| == orgCount
    ensures forall i :: 0 <= i < |tasks| ==> tasks[i] == (Records(events, false)[i], i + 1)
    ensures files == Written(ImportV1.OrganisationFiles(Records(events, false), outputDirectory))
  {
    orgCount, tasks := Submit(events);
    files := Complete(tasks, outputDirectory);
    assert seq(|tasks|, i requires 0 <= i < |tasks| => tasks[i].0) == Records(events, false);
  }
}
