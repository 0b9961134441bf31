/**
 * import-v1.py: one pass over the parse events; every organisation record
 * is counted, and one whose `OrgId` carries a non-empty `extension` is
 * converted and written to `output_yaml_files/{extension}.yaml`.
 */
module ImportV1 {
  import opened Wrappers
  import opened PyText
  import opened Xml
  import opened Convert
  import opened Classify
  import opened Batching
  import opened Output

  /** `output_directory` */
  const OUTPUT_DIRECTORY: string := "output_yaml_files"

  /** The file one organisation record produces, if any. */
  function OrganisationFile(org: Element, outputDirectory: string): Option<FileWrite>
  {
    var extension := Extension(OrgIdEither(org));
    if Truthy(extension) then Some((PathJoin(outputDirectory, extension.value + ".yaml"), ElementValue(org, false)))
    else None
  }

  /**
   * A record is written exactly when its `OrgId` (namespaced first, then
   * plain) has a non-empty `extension`; the file is named after the
   * extension, sits directly in the output directory unless the extension is
   * an absolute path, and holds the converted record.
   */
  lemma OrganisationFileSpec(org: Element, outputDirectory: string)
    ensures var orgId := OrgIdEither(org);
            OrganisationFile(org, outputDirectory).Some?
            <==> orgId.Some? && Attr(orgId.value, "extension").Some? && Attr(orgId.value, "extension").value != ""
    ensures OrganisationFile(org, outputDirectory).Some? ==>
              var (path, content) := OrganisationFile(org, outputDirectory).value;
              var extension := Attr(OrgIdEither(org).value, "extension").value;
              EndsWith(path, extension + ".yaml") && content == ElementValue(org, false)
              && (PlainComponent(outputDirectory) && extension[0] != '/' ==>
                    path == outputDirectory + "/" + extension + ".yaml")
  {
    var extension := Extension(OrgIdEither(org));
    if Truthy(extension) {
      PathJoinSpec(outputDirectory, extension.value + ".yaml");
      if PlainComponent(outputDirectory) && extension.value[0] != '/' {
        PathJoinPlain(outputDirectory, extension.value + ".yaml");
      }
    }
  }

  /** The per-record files, one slot per record. */
  function OrganisationFiles(orgs: seq<Element>, outputDirectory: string): (r: seq<Option<FileWrite>>)
    ensures |r| == |orgs|
  {
    seq(|orgs|, i requires 0 <= i < |orgs| => OrganisationFile(orgs[i], outputDirectory))
  }

  lemma OrganisationFilesSnoc(orgs: seq<Element>, org: Element, outputDirectory: string)
    ensures OrganisationFiles(orgs + [org], outputDirectory)
            == OrganisationFiles(orgs, outputDirectory) + [OrganisationFile(org, outputDirectory)]
  {
  }

  lemma OrganisationFilesAppend(orgs: seq<Element>, more: seq<Element>, outputDirectory: string)
    ensures OrganisationFiles(orgs + more, outputDirectory)
            == OrganisationFiles(orgs, outputDirectory) + OrganisationFiles(more, outputDirectory)
  {
    var l := OrganisationFiles(orgs + more, outputDirectory);
    var r := OrganisationFiles(orgs, outputDirectory) + OrganisationFiles(more, outputDirectory);
    assert |l| == |r|;
    forall i | 0 <= i < |orgs| ensures l[i] == r[i] {
      assert (orgs + more)[i] == orgs[i];
    }
    forall i | |orgs| <= i < |l| ensures l[i] == r[i] {
      assert (orgs + more)[i] == more[i - |orgs|];
    }
  }

  /**
   * The files a run writes, in order: those of the records with an
   * extension; every such record's file is among them, and nothing else is.
   */
  lemma RunFiles(orgs: seq<Element>, outputDirectory: string)
    ensures var files := Written(OrganisationFiles(orgs, outputDirectory));
            |files| <= |orgs|
            && (forall i :: 0 <= i < |orgs| && OrganisationFile(orgs[i], outputDirectory).Some? ==>
                  OrganisationFile(orgs[i], outputDirectory).value in files)
            && (forall w :: w in files ==>
                  exists i :: 0 <= i < |orgs| && OrganisationFile(orgs[i], outputDirectory) == Some(w))
  {
    var xs := OrganisationFiles(orgs, outputDirectory);
    WrittenSpec(xs);
    forall w | w in Written(xs)
      ensures exists i :: 0 <= i < |orgs| && OrganisationFile(orgs[i], outputDirectory) == Some(w)
    {
      var i :| 0 <= i < |xs| && xs[i] == Some(w);
      assert OrganisationFile(orgs[i], outputDirectory) == Some(w);
    }
    forall i | 0 <= i < |orgs| && OrganisationFile(orgs[i], outputDirectory).Some?
      ensures OrganisationFile(orgs[i], outputDirectory).value in Written(xs)
    {
      assert xs[i] == Some(OrganisationFile(orgs[i], outputDirectory).value);
    }
  }

  /**
   * The loop body for one record: the namespaced `OrgId`, else the plain
   * one; with a non-empty `extension` the record is converted and its file
   * is written.
   */
  method WriteRecord(elem: Element, outputDirectory: string) returns (written: Option<FileWrite>)
    ensures written == OrganisationFile(elem, outputDirectory)
  {
    var orgIdElement := FindChild(elem, NAMESPACE + "OrgId");
    if orgIdElement.None? {
      orgIdElement := FindChild(elem, "OrgId");
    }
    assert orgIdElement == OrgIdEither(elem);
    written := None;
    if orgIdElement.Some? {
      var extension := Attr(orgIdElement.value, "extension");
      if extension.Some? && extension.value != "" {
        var converted := ProcessElement(elem, false);
        var organisationDict := converted.value;
        written := Some((PathJoin(outputDirectory, extension.value + ".yaml"), organisationDict));
      }
    }
  }

  /**
   * The main loop: `org_count` ends as the number of records (tag ending in
   * `Organisation`), and the files written are each record's file in
   * stream order.
   */
  method Run(events: seq<ParseEvent>, outputDirectory: string) returns (orgCount: nat, files: seq<FileWrite>)
    ensures orgCount == |Records(events, false)|
    ensures files == Written(OrganisationFiles(Records(events, false), outputDirectory))
  {
    orgCount := 0;
    files := [];
    ghost var recs: seq<Element> := [];
    for i := 0 to |events|
      invariant recs == Records(events[..i], false)
      invariant orgCount == |recs| && files == Written(OrganisationFiles(recs, outputDirectory))
    {
      var event := events[i];
      var elem := event.element;
      RecordsStep(events, i, false);
      if event.kind == End && EndsWith(elem.tag, "Organisation") {
        orgCount := orgCount + 1;
        var written := WriteRecord(elem, outputDirectory);
        OrganisationFilesSnoc(recs, elem, outputDirectory);
        WrittenSnoc(OrganisationFiles(recs, outputDirectory), written);
        files := files + Emitted(written);
        recs := recs + [elem];
      }
    }
    assert events[..|events|] == events;
  }
}
