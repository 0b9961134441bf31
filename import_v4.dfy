/**
 * import-v4.py: the files move into `base/{status}/{orgRecordClass}/`, and
 * each record's task is submitted to a thread pool whose results are never
 * read, so a task that fails writes nothing and the run carries on. The main
 * loop is import-v2.py's.
 */
module ImportV4 {
  import opened Wrappers
  import opened PyText
  import opened Xml
  import opened Convert
  import opened Classify
  import opened Batching
  import opened Output
  import ImportV2

  /** `base_output_directory` */
  const BASE_OUTPUT_DIRECTORY: string := "output_yaml_files"

  /**
   * `process_organisation`: the `OrgId` is looked up namespaced, then plain;
   * a record with an extension goes to `base/{status}/{record class}/`, and
   * `os.path.join` raises `TypeError` when the `Status` has no `value`.
   */
  function OrganisationFile(org: Element, base: string): Result<Option<FileWrite>>
  {
    var orgId := OrgIdEither(org);
    var extension := Extension(orgId);
    if !Truthy(extension) then Ok(None)
    else match StatusValue(org)
      case None => Fail(TypeError)
      case Some(status) =>
        Ok(Some((PathJoin(PathJoin(PathJoin(base, status), RecordClass(org)), extension.value + ".yaml"),
                 ElementValue(org, false))))
  }

  /**
   * Nothing is written without an extension; with one, the pool task fails
   * exactly when `Status` is present without `value`, and otherwise writes
   * the converted record to `base/status/class/extension.yaml` (one `/`
   * between the parts when they are plain names), where a missing `Status`
   * or `orgRecordClass` reads as `Unknown`.
   */
  lemma OrganisationFileSpec(org: Element, base: string)
    ensures !Truthy(Extension(OrgIdEither(org))) ==> OrganisationFile(org, base) == Ok(None)
    ensures Truthy(Extension(OrgIdEither(org))) ==>
              (OrganisationFile(org, base).Fail? <==>
                 FindChild(org, "Status").Some? && Attr(FindChild(org, "Status").value, "value").None?)
    ensures OrganisationFile(org, base).Fail? ==> OrganisationFile(org, base).failure == TypeError
    ensures OrganisationFile(org, base).Ok? && OrganisationFile(org, base).value.Some? ==>
              var (path, content) := OrganisationFile(org, base).value.value;
              var extension := Extension(OrgIdEither(org)).value;
              var status := StatusValue(org).value;
              var recordClass := AttrOr(org, "orgRecordClass", UNKNOWN);
              content == ElementValue(org, false) && EndsWith(path, extension + ".yaml")
              && (FindChild(org, "Status").None? ==> status == UNKNOWN)
              && (PlainComponent(base) && PlainComponent(status) && PlainComponent(recordClass) && extension[0] != '/' ==>
                    path == base + "/" + status + "/" + recordClass + "/" + extension + ".yaml")
  {
    var extension := Extension(OrgIdEither(org));
    if Truthy(extension) && StatusValue(org).Some? {
      WrittenFile(org, base, extension.value, StatusValue(org).value);
    }
  }

  /** The file of a record with an extension and a status. */
  lemma WrittenFile(org: Element, base: string, extension: string, status: string)
    requires Extension(OrgIdEither(org)) == Some(extension) && extension != [] && StatusValue(org) == Some(status)
    ensures var recordClass := AttrOr(org, "orgRecordClass", UNKNOWN);
            var name := extension + ".yaml";
            var path := PathJoin(PathJoin(PathJoin(base, status), recordClass), name);
            OrganisationFile(org, base) == Ok(Some((path, ElementValue(org, false))))
            && EndsWith(path, name)
            && (PlainComponent(base) && PlainComponent(status) && PlainComponent(recordClass) && extension[0] != '/' ==>
                  path == base + "/" + status + "/" + recordClass + "/" + extension + ".yaml")
  {
    NestedPath(base, status, RecordClass(org), extension + ".yaml");
  }

  /** What one record's pool task returns. */
  function FileTask(base: string): Element -> Result<Option<FileWrite>>
  {
    org => OrganisationFile(org, base)
  }

  /**
   * `process_organisation` as the code runs it: returns the file written,
   * or the exception the pool task ends with.
   */
  method ProcessOrganisation(org: Element, orgCount: nat, base: string) returns (r: Result<Option<FileWrite>>)
    ensures r == OrganisationFile(org, base)
  {
    var orgIdElement := FindChild(org, NAMESPACE + "OrgId");
    if orgIdElement.None? {
      orgIdElement := FindChild(org, "OrgId");
    }
    assert orgIdElement == OrgIdEither(org);
    var statusElement := FindChild(org, "Status");
    var orgRecordClass := Attr(org, "orgRecordClass");
    r := Ok(None);
    if orgIdElement.Some? {
      var extension := Attr(orgIdElement.value, "extension");
      var statusValue := if statusElement.Some? then Attr(statusElement.value, "value") else Some(UNKNOWN);
      var recordClassValue := if orgRecordClass.Some? then orgRecordClass.value else UNKNOWN;
      if extension.Some? && extension.value != "" {
        if statusValue.None? {
          return Fail(TypeError);
        }
        var nestedDir := PathJoin(PathJoin(base, statusValue.value), recordClassValue);
        var converted := ProcessElement(org, false);
        var organisationDict := converted.value;
        r := Ok(Some((PathJoin(nestedDir, extension.value + ".yaml"), organisationDict)));
      }
    }
  }

  /**
   * The whole run: the records are counted and numbered as in import-v2.py,
   * and the files are those of the pool tasks that succeeded, in record order.
   */
  method Run(events: seq<ParseEvent>, base: string) returns (orgCount: nat, files: seq<FileWrite>)
    ensures orgCount == |Records(events, false)|
    ensures files == Written(TaskFiles(Records(events, false), FileTask(base)))
  {
    var tasks;
    orgCount, tasks := ImportV2.Submit(events);
    ghost var orgs := Records(events, false);
    files := [];
    for i := 0 to |tasks|
      invariant files == Written(TaskFiles(orgs[..i], FileTask(base)))
    {
      var r := ProcessOrganisation(tasks[i].0, tasks[i].1, base);
      assert tasks[i].0 == orgs[i];
      TakeSnoc(orgs, i);
      TaskFilesSnoc(orgs[..i], orgs[i], FileTask(base));
      WrittenSnoc(TaskFiles(orgs[..i], FileTask(base)), Swallowed(r));
      files := files + Emitted(Swallowed(r));
    }
    assert orgs[..|tasks|] == orgs;
  }
}
