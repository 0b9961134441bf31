/**
 * import-v5.py: each record needs a `Roles` child; its first primary role
 * is counted in the global role counters and names the second folder level,
 * `base/{status}/{role_id}/{extension}.yaml`. Tasks go to a thread pool
 * whose results are never read, so the `sys.exit(1)` of a record without
 * `Roles` ends only that task.
 */
module ImportV5 {
  import opened Wrappers
  import opened PyText
  import opened Xml
  import opened Convert
  import opened Classify
  import opened Batching
  import opened Output
  import OrderedDict
  import ImportV2

  /** `base_output_directory` */
  const BASE_OUTPUT_DIRECTORY: string := "output_yaml_files"

  /**
   * The file `process_organisation` writes: none without `Roles` (the pool task
   * exits), none without a plain `OrgId` extension, and a `TypeError` when
   * `Status` has no `value`.
   */
  function OrganisationFile(org: Element, base: string): Result<Option<FileWrite>>
  {
    match FindChild(org, "Roles")
    case None => Fail(MissingRoles)
    case Some(roles) =>
      var extension := Extension(OrgIdPlain(org));
      if !Truthy(extension) then Ok(None)
      else match StatusValue(org)
        case None => Fail(TypeError)
        case Some(status) =>
          Ok(Some((PathJoin(PathJoin(PathJoin(base, status), PrimaryRoleId(roles)), extension.value + ".yaml"),
                   ElementValue(org, false))))
  }

  /** The counters after one record: its primary role is counted once it has `Roles`. */
  function CountOrganisation(c: RoleCounts, org: Element): RoleCounts
  {
    match FindChild(org, "Roles")
    case None => c
    case Some(roles) => CountRole(c, PrimaryRoleId(roles))
  }

  /** The counters after a sequence of records. */
  function CountAll(c: RoleCounts, orgs: seq<Element>): RoleCounts
  {
    if orgs == [] then c else CountOrganisation(CountAll(c, orgs[..|orgs| - 1]), orgs[|orgs| - 1])
  }

  lemma {:induction false} CountAllAppend(c: RoleCounts, orgs: seq<Element>, more: seq<Element>)
    ensures CountAll(c, orgs + more) == CountAll(CountAll(c, orgs), more)
  {
    if more == [] {
      assert orgs + more == orgs;
    } else {
      CountAllAppend(c, orgs, more[..|more| - 1]);
      assert (orgs + more)[..|orgs + more| - 1] == orgs + more[..|more| - 1];
    }
  }

  /** The number of records that have a `Roles` child. */
  function WithRoles(orgs: seq<Element>): nat
  {
    if orgs == [] then 0
    else WithRoles(orgs[..|orgs| - 1]) + (if FindChild(orgs[|orgs| - 1], "Roles").Some? then 1 else 0)
  }

  /**
   * The counters count every record with `Roles` exactly once, whether or
   * not its file is then written: a record without `Roles` is not counted.
   */
  lemma {:induction false} CountAllTotal(c: RoleCounts, orgs: seq<Element>)
    ensures Total(CountAll(c, orgs)) == Total(c) + WithRoles(orgs)
  {
    if orgs != [] {
      CountAllTotal(c, orgs[..|orgs| - 1]);
      var org := orgs[|orgs| - 1];
      match FindChild(org, "Roles")
      case None =>
      case Some(roles) => CountRoleSpec(CountAll(c, orgs[..|orgs| - 1]), PrimaryRoleId(roles));
    }
  }

  /**
   * A record without `Roles` exits; otherwise nothing is written without an
   * extension, the write fails with `TypeError` exactly when `Status` has no
   * `value`, and a written file is the converted record under
   * `base/status/role_id/extension.yaml`.
   */
  lemma OrganisationFileSpec(org: Element, base: string)
    ensures OrganisationFile(org, base) == Fail(MissingRoles) <==> FindChild(org, "Roles").None?
    ensures FindChild(org, "Roles").Some? && Truthy(Extension(OrgIdPlain(org))) ==>
              (OrganisationFile(org, base) == Fail(TypeError) <==>
                 FindChild(org, "Status").Some? && Attr(FindChild(org, "Status").value, "value").None?)
    ensures FindChild(org, "Roles").Some? && !Truthy(Extension(OrgIdPlain(org))) ==> OrganisationFile(org, base) == Ok(None)
    ensures OrganisationFile(org, base).Ok? && OrganisationFile(org, base).value.Some? ==>
              var (path, content) := OrganisationFile(org, base).value.value;
              var extension := Extension(OrgIdPlain(org)).value;
              var status := StatusValue(org).value;
              var roleId := PrimaryRoleId(FindChild(org, "Roles").value);
              content == ElementValue(org, false) && EndsWith(path, extension + ".yaml")
              && (PlainComponent(base) && PlainComponent(status) && PlainComponent(roleId) && extension[0] != '/' ==>
                    path == base + "/" + status + "/" + roleId + "/" + extension + ".yaml")
  {
    if FindChild(org, "Roles").Some? && Truthy(Extension(OrgIdPlain(org))) && StatusValue(org).Some? {
      var extension := Extension(OrgIdPlain(org)).value;
      var status := StatusValue(org).value;
      var roleId := PrimaryRoleId(FindChild(org, "Roles").value);
      NestedPath(base, status, roleId, extension + ".yaml");
    }
  }

  /** What one record's pool task returns. */
  function FileTask(base: string): Element -> Result<Option<FileWrite>>
  {
    org => OrganisationFile(org, base)
  }

  /** One more record moves the counters and the files by that record's alone. */
  lemma RunStep(c: RoleCounts, recs: seq<Element>, org: Element, base: string)
    ensures CountAll(c, recs + [org]) == CountOrganisation(CountAll(c, recs), org)
    ensures Written(TaskFiles(recs + [org], FileTask(base)))
            == Written(TaskFiles(recs, FileTask(base))) + Emitted(Swallowed(OrganisationFile(org, base)))
  {
    assert (recs + [org])[..|recs|] == recs;
    TaskFilesSnoc(recs, org, FileTask(base));
    WrittenSnoc(TaskFiles(recs, FileTask(base)), Swallowed(OrganisationFile(org, base)));
  }

  /**
   * The rest of `process_organisation` once the role is counted: the plain
   * `OrgId` and `Status` are looked up, and a record with an extension is
   * converted and written under `base/{status}/{role_id}`, or ends in a
   * `TypeError` when `Status` has no `value`.
   */
  method WriteOrganisation(org: Element, roleId: string, base: string) returns (r: Result<Option<FileWrite>>)
    requires FindChild(org, "Roles").Some? && roleId == PrimaryRoleId(FindChild(org, "Roles").value)
    ensures r == OrganisationFile(org, base)
  {
    var orgIdElement := FindChild(org, "OrgId");
    var statusElement := FindChild(org, "Status");
    var statusValue := if statusElement.Some? then Attr(statusElement.value, "value") else Some(UNKNOWN);
    r := Ok(None);
    if orgIdElement.Some? {
      var extension := Attr(orgIdElement.value, "extension");
      if extension.Some? && extension.value != "" {
        if statusValue.None? {
          return Fail(TypeError);
        }
        var nestedDir := PathJoin(PathJoin(base, statusValue.value), roleId);
        var converted := ProcessElement(org, false);
        var organisationDict := converted.value;
        r := Ok(Some((PathJoin(nestedDir, extension.value + ".yaml"), organisationDict)));
      }
    }
  }

  /**
   * The script's globals: the two role counters, the files written so far,
   * and the output directory; `seen` is every record handed to
   * `process_organisation` so far.
   */
  class Importer {
    var counts: RoleCounts
    var files: seq<FileWrite>
    const base: string
    ghost var seen: seq<Element>

    /** The counters and the files are those of the records seen, from empty counters. */
    ghost predicate Valid()
      reads this
    {
      counts == CountAll(RoleCounts([], 0), seen) && files == Written(TaskFiles(seen, FileTask(base)))
    }

    constructor(base: string)
      ensures Valid() && seen == [] && this.base == base
      ensures counts == RoleCounts([], 0) && files == []
    {
      counts := RoleCounts([], 0);
      files := [];
      this.base := base;
      seen := [];
    }

    /**
     * `process_organisation`: the counters move as soon as `Roles` is found
     * (before the write that may fail), the file, if any, is appended, and
     * the exception the pool task ends with, if any, is returned.
     */
    method ProcessOrganisation(org: Element, orgCount: nat) returns (failure: Option<Failure>)
      requires Valid()
      modifies this
      ensures Valid() && seen == old(seen) + [org]
      ensures counts == CountOrganisation(old(counts), org)
      ensures files == old(files) + Emitted(Swallowed(OrganisationFile(org, base)))
      ensures failure == FailureOf(OrganisationFile(org, base))
    {
      RunStep(RoleCounts([], 0), seen, org, base);
      seen := seen + [org];
      var rolesElement := FindChild(org, "Roles");
      if rolesElement.None? {
        return Some(MissingRoles);
      }
      var roleId := SelectPrimaryRole(rolesElement.value);
      counts := CountRole(counts, roleId);
      var outcome := WriteOrganisation(org, roleId, base);
      files := files + Emitted(Swallowed(outcome));
      failure := FailureOf(outcome);
    }

    /**
     * The main loop: every record is counted and handed to its task, in
     * stream order; how the pool task ends is ignored.
     */
    method Run(events: seq<ParseEvent>) returns (orgCount: nat)
      requires Valid()
      modifies this
      ensures Valid() && seen == old(seen) + Records(events, false)
      ensures orgCount == |Records(events, false)|
    {
      var tasks;
      orgCount, tasks := ImportV2.Submit(events);
      ghost var orgs := Records(events, false);
      ghost var s0 := seen;
      for i := 0 to |tasks|
        invariant seen == s0 + orgs[..i] && Valid()
      {
        var _ := ProcessOrganisation(tasks[i].0, tasks[i].1);
        assert tasks[i].0 == orgs[i];
        TakeSnoc(orgs, i);
        AppendAssoc(s0, orgs[..i], [orgs[i]]);
      }
      assert orgs[..|tasks|] == orgs;
    }
  }
}
