/**
 * The per-organisation lookups shared by the snapshots: the `OrgId`
 * extension, the `Status` value, the first primary role, the two role
 * counters, the `GeoLoc/Location` fields, and the `metadata` entry the
 * buffering snapshots attach to the converted organisation.
 */
module Classify {
  import opened Wrappers
  import opened Xml
  import opened Convert
  import OrderedDict

  /** The placeholder for every missing field. */
  const UNKNOWN: string := "Unknown"

  /** The exception a step ends with, if any. */
  function FailureOf<T>(r: Result<T>): Option<Failure>
  {
    if r.Fail? then Some(r.failure) else None
  }

  /** The failure of the first element whose step fails, in order. */
  function FirstFailureOf<T, U>(xs: seq<T>, f: T -> Result<U>): Option<Failure>
  {
    if xs == [] then None
    else
      var r := FirstFailureOf(xs[..|xs| - 1], f);
      if r.Some? then r else FailureOf(f(xs[|xs| - 1]))
  }

  /** The steps fail somewhere exactly when one of them fails. */
  lemma {:induction false} FirstFailureOfSpec<T, U>(xs: seq<T>, f: T -> Result<U>)
    ensures FirstFailureOf(xs, f).None? <==> forall i :: 0 <= i < |xs| ==> f(xs[i]).Ok?
  {
    if xs != [] {
      var init := xs[..|xs| - 1];
      FirstFailureOfSpec(init, f);
      assert forall i :: 0 <= i < |init| ==> xs[i] == init[i];
    }
  }

  // ---------------------------------------------------------------------
  // OrgId and extension

  /** `org.find("./OrgId")`, as the snapshots from import-v5.py on look it up. */
  function OrgIdPlain(org: Element): Option<Element>
  {
    FindChild(org, "OrgId")
  }

  /** The namespaced `OrgId` first, then the plain one (import-v1.py to import-v4.py). */
  function OrgIdEither(org: Element): (r: Option<Element>)
    ensures r.Some? ==> r.value.tag == NAMESPACE + "OrgId" || r.value.tag == "OrgId"
    ensures r.None? <==> FindChild(org, NAMESPACE + "OrgId").None? && FindChild(org, "OrgId").None?
  {
    FindChildSpec(org, NAMESPACE + "OrgId");
    FindChildSpec(org, "OrgId");
    match FindChild(org, NAMESPACE + "OrgId")
    case Some(o) => Some(o)
    case None => FindChild(org, "OrgId")
  }

  /** `org_id_element.get("extension")`, or `None` when there is no `OrgId` at all. */
  function Extension(orgId: Option<Element>): Option<string>
  {
    match orgId
    case None => None
    case Some(o) => Attr(o, "extension")
  }

  /** Python's `if extension:` — present and not the empty string. */
  predicate Truthy(x: Option<string>)
  {
    x.Some? && x.value != []
  }

  // ---------------------------------------------------------------------
  // Primary role

  /** `role.attrib.get("primaryRole") == "true"` */
  predicate IsPrimary(role: Element)
  {
    Attr(role, "primaryRole") == Some("true")
  }

  /** The position of the first primary role. */
  function FirstPrimary(rs: seq<Element>): (r: Option<nat>)
    ensures r.Some? ==> r.value < |rs| && IsPrimary(rs[r.value])
                        && forall j :: 0 <= j < r.value ==> !IsPrimary(rs[j])
    ensures r.None? ==> forall j :: 0 <= j < |rs| ==> !IsPrimary(rs[j])
  {
    if rs == [] then None
    else if IsPrimary(rs[0]) then Some(0)
    else match FirstPrimary(rs[1..])
      case None => None
      case Some(i) => Some(i + 1)
  }

  /** The `role_id` the snapshots derive from the `Roles` element. */
  function PrimaryRoleId(roles: Element): string
  {
    var rs := FindAll(roles, "Role");
    match FirstPrimary(rs)
    case None => UNKNOWN
    case Some(i) => AttrOr(rs[i], "id", UNKNOWN)
  }

  /**
   * The loop over `roles_element.findall("./Role")` that stops at the first
   * primary role.
   */
  method SelectPrimaryRole(roles: Element) returns (roleId: string)
    ensures roleId == PrimaryRoleId(roles)
  {
    roleId := UNKNOWN;
    var rs := FindAll(roles, "Role");
    var i := 0;
    while i < |rs|
      invariant 0 <= i <= |rs|
      invariant forall j :: 0 <= j < i ==> !IsPrimary(rs[j])
      invariant roleId == UNKNOWN
    {
      if Attr(rs[i], "primaryRole") == Some("true") {
        roleId := AttrOr(rs[i], "id", UNKNOWN);
        FirstPrimaryAt(rs, i);
        return;
      }
      i := i + 1;
    }
  }

  /**
   * `role_id` is the `id` of the first `Role` child whose `primaryRole` is
   * exactly `"true"` (`"Unknown"` when it has no `id`), and `"Unknown"` when
   * no role is primary.
   */
  lemma PrimaryRoleIdSpec(roles: Element)
    ensures var rs := FindAll(roles, "Role");
            forall i :: 0 <= i < |rs| && IsPrimary(rs[i]) && (forall j :: 0 <= j < i ==> !IsPrimary(rs[j])) ==>
              PrimaryRoleId(roles) == AttrOr(rs[i], "id", UNKNOWN)
    ensures var rs := FindAll(roles, "Role");
            (forall i :: 0 <= i < |rs| ==> !IsPrimary(rs[i])) ==> PrimaryRoleId(roles) == UNKNOWN
  {
    var rs := FindAll(roles, "Role");
    forall i | 0 <= i < |rs| && IsPrimary(rs[i]) && (forall j :: 0 <= j < i ==> !IsPrimary(rs[j]))
      ensures PrimaryRoleId(roles) == AttrOr(rs[i], "id", UNKNOWN)
    {
      FirstPrimaryAt(rs, i);
    }
  }

  /** The first primary role is the one with no primary role before it. */
  lemma FirstPrimaryAt(rs: seq<Element>, i: nat)
    requires i < |rs| && IsPrimary(rs[i]) && forall j :: 0 <= j < i ==> !IsPrimary(rs[j])
    ensures FirstPrimary(rs) == Some(i)
  {
    var k := FirstPrimary(rs);
    assert k.Some?;
    assert !(k.value < i);
    assert !(i < k.value);
  }

  // ---------------------------------------------------------------------
  // Role counters

  /** `primary_role_counts` (a dict from role id to count) and `no_primary_role_count`. */
  datatype RoleCounts = RoleCounts(perRole: seq<(string, nat)>, noPrimary: nat)

  /** `Unknown` bumps the no-primary counter; any other id bumps its own count. */
  function CountRole(c: RoleCounts, roleId: string): RoleCounts
  {
    if roleId == UNKNOWN then c.(noPrimary := c.noPrimary + 1)
    else c.(perRole := OrderedDict.Put(c.perRole, roleId, OrderedDict.GetOr(c.perRole, roleId, 0) + 1))
  }

  function Sum(s: seq<nat>): nat
  {
    if s == [] then 0 else Sum(s[..|s| - 1]) + s[|s| - 1]
  }

  /** Every organisation counted so far, with or without a primary role. */
  function Total(c: RoleCounts): nat
  {
    Sum(OrderedDict.Values(c.perRole)) + c.noPrimary
  }

  lemma {:induction false} SumUpdate(s: seq<nat>, i: nat, x: nat)
    requires i < |s|
    ensures Sum(s[i := x]) + s[i] == Sum(s) + x
  {
    var t := s[i := x];
    assert t[..|t| - 1] == if i == |s| - 1 then s[..|s| - 1] else s[..|s| - 1][i := x];
    if i < |s| - 1 {
      SumUpdate(s[..|s| - 1], i, x);
    }
  }

  lemma SumAppend(s: seq<nat>, x: nat)
    ensures Sum(s + [x]) == Sum(s) + x
  {
    assert (s + [x])[..|s|] == s;
  }

  /**
   * Exactly one counter moves, by one: the no-primary count for `Unknown`,
   * otherwise the count of that role id (starting from zero); every other
   * count stays, and the total rises by one.
   */
  lemma CountRoleSpec(c: RoleCounts, roleId: string)
    ensures var d := CountRole(c, roleId);
            Total(d) == Total(c) + 1
            && (roleId == UNKNOWN ==> d.perRole == c.perRole && d.noPrimary == c.noPrimary + 1)
            && (roleId != UNKNOWN ==>
                  d.noPrimary == c.noPrimary
                  && roleId in OrderedDict.Keys(d.perRole)
                  && OrderedDict.Get(d.perRole, roleId) == OrderedDict.GetOr(c.perRole, roleId, 0) + 1
                  && forall r :: r != roleId && r in OrderedDict.Keys(c.perRole) ==>
                       r in OrderedDict.Keys(d.perRole) && OrderedDict.Get(d.perRole, r) == OrderedDict.Get(c.perRole, r))
  {
    if roleId != UNKNOWN {
      var n := OrderedDict.GetOr(c.perRole, roleId, 0) + 1;
      OrderedDict.PutSpec(c.perRole, roleId, n);
      SumPut(c.perRole, roleId, n);
    }
  }

  /** Setting one count moves the sum of the counts by the difference. */
  lemma SumPut(d: seq<(string, nat)>, k: string, n: nat)
    ensures Sum(OrderedDict.Values(OrderedDict.Put(d, k, n))) + OrderedDict.GetOr(d, k, 0) == Sum(OrderedDict.Values(d)) + n
  {
    var vs := OrderedDict.Values(d);
    if k in OrderedDict.Keys(d) {
      var i := OrderedDict.IndexOf(d, k);
      assert OrderedDict.Values(OrderedDict.Put(d, k, n)) == vs[i := n];
      SumUpdate(vs, i, n);
    } else {
      assert OrderedDict.Values(OrderedDict.Put(d, k, n)) == vs + [n];
      SumAppend(vs, n);
    }
  }

  // ---------------------------------------------------------------------
  // Status and location

  /**
   * `status.attrib.get("value") if status is not None else "Unknown"`:
   * `None` stands for Python's `None`, left when `Status` has no `value`.
   */
  function StatusValue(org: Element): Option<string>
  {
    match FindChild(org, "Status")
    case None => Some(UNKNOWN)
    case Some(s) => Attr(s, "value")
  }

  /**
   * `location.findtext(name, default="Unknown") if location is not None else
   * "Unknown"`, with `location = org.find("./GeoLoc/Location")`.
   */
  function LocationField(org: Element, name: string): string
  {
    match FindNested(org, "GeoLoc", "Location")
    case None => UNKNOWN
    case Some(loc) => FindText(loc, name, UNKNOWN)
  }

  /**
   * Missing fields read as `"Unknown"`; a `Status` without `value` is the one
   * field that reads as `None`; a present leaf without text reads as `""`.
   */
  lemma Defaults(org: Element, name: string)
    ensures FindChild(org, "Status").None? ==> StatusValue(org) == Some(UNKNOWN)
    ensures FindChild(org, "Status").Some? ==>
              (StatusValue(org).None? <==> "value" !in OrderedDict.Keys(FindChild(org, "Status").value.attrs))
    ensures FindNested(org, "GeoLoc", "Location").None? ==> LocationField(org, name) == UNKNOWN
    ensures FindNested(org, "GeoLoc", "Location").Some? ==>
              var loc := FindNested(org, "GeoLoc", "Location").value;
              (FindChild(loc, name).None? ==> LocationField(org, name) == UNKNOWN)
              && (FindChild(loc, name).Some? ==> LocationField(org, name) == FindChild(loc, name).value.text.GetOr(""))
  {
    if FindNested(org, "GeoLoc", "Location").Some? {
      FindChildSpec(FindNested(org, "GeoLoc", "Location").value, name);
    }
  }

  /** `org.attrib.get("orgRecordClass")`, `"Unknown"` when absent (import-v4.py). */
  function RecordClass(org: Element): string
  {
    AttrOr(org, "orgRecordClass", UNKNOWN)
  }

  // ---------------------------------------------------------------------
  // Metadata

  /** A Python string or `None` as a dict value. */
  function StrOrNull(x: Option<string>): Value
  {
    match x
    case None => Null
    case Some(s) => Str(s)
  }

  /** `{"org_id": ..., "status": ..., "role_id": ...}` (import-v11.py). */
  function BasicMetadata(orgId: string, status: Option<string>, roleId: string): seq<(string, Value)>
  {
    [("org_id", Str(orgId)), ("status", StrOrNull(status)), ("role_id", Str(roleId))]
  }

  /** The same keys followed by `post_code` and `uprn` (import-v12.py, importdata.py). */
  function LocatedMetadata(orgId: string, status: Option<string>, roleId: string, postCode: string, uprn: string)
    : seq<(string, Value)>
  {
    BasicMetadata(orgId, status, roleId) + [("post_code", Str(postCode)), ("uprn", Str(uprn))]
  }

  /** `organisation_dict["metadata"] = metadata` */
  function WithMetadata(v: Value, metadata: seq<(string, Value)>): Value
    requires v.Map?
  {
    Map(OrderedDict.Put(v.fields, "metadata", Map(metadata)))
  }

  /**
   * The metadata entry is there and holds exactly what was attached; every
   * other key keeps its place and its value.
   */
  lemma WithMetadataSpec(v: Value, metadata: seq<(string, Value)>)
    requires v.Map?
    ensures var d := WithMetadata(v, metadata).fields;
            "metadata" in OrderedDict.Keys(d) && OrderedDict.Get(d, "metadata") == Map(metadata)
            && (forall k :: k != "metadata" && k in OrderedDict.Keys(v.fields) ==>
                  k in OrderedDict.Keys(d) && OrderedDict.Get(d, k) == OrderedDict.Get(v.fields, k))
            && (forall k :: k in OrderedDict.Keys(d) <==> k == "metadata" || k in OrderedDict.Keys(v.fields))
  {
    OrderedDict.PutSpec(v.fields, "metadata", Map(metadata));
  }

  /** The metadata keys are exactly `org_id`, `status`, `role_id` (and then `post_code`, `uprn`). */
  lemma MetadataKeys(orgId: string, status: Option<string>, roleId: string, postCode: string, uprn: string)
    ensures OrderedDict.Keys(BasicMetadata(orgId, status, roleId)) == ["org_id", "status", "role_id"]
    ensures OrderedDict.Keys(LocatedMetadata(orgId, status, roleId, postCode, uprn))
            == ["org_id", "status", "role_id", "post_code", "uprn"]
    ensures OrderedDict.Distinct(LocatedMetadata(orgId, status, roleId, postCode, uprn))
  {
  }

  /** Each metadata key maps to the value it was given. */
  lemma LocatedMetadataFields(orgId: string, status: Option<string>, roleId: string, postCode: string, uprn: string)
    ensures var md := LocatedMetadata(orgId, status, roleId, postCode, uprn);
            "org_id" in OrderedDict.Keys(md) && "role_id" in OrderedDict.Keys(md)
            && OrderedDict.GetOr(md, "org_id", Null) == Str(orgId) && OrderedDict.Get(md, "org_id") == Str(orgId)
            && OrderedDict.GetOr(md, "status", Str(UNKNOWN)) == StrOrNull(status)
            && OrderedDict.GetOr(md, "role_id", Null) == Str(roleId) && OrderedDict.Get(md, "role_id") == Str(roleId)
            && OrderedDict.GetOr(md, "post_code", Str(UNKNOWN)) == Str(postCode)
            && OrderedDict.GetOr(md, "uprn", Str(UNKNOWN)) == Str(uprn)
  {
    MetadataKeys(orgId, status, roleId, postCode, uprn);
  }

  /** An organisation with a `Roles` child converts to a dict, so metadata can be attached. */
  lemma OrganisationIsMap(org: Element, w: bool)
    requires FindChild(org, "Roles").Some?
    ensures ElementValue(org, w).Map?
  {
    FindChildSpec(org, "Roles");
    TextScalar(org, w);
  }

  /**
   * The pool task of import-v12.py and importdata.py reaches the conversion
   * (the record has `Roles` and an extension) and the conversion's `Roles`
   * test raises `TypeError`.
   */
  predicate ConversionRaises(org: Element)
  {
    FindChild(org, "Roles").Some? && Truthy(Extension(OrgIdPlain(org))) && RaisesIn(org)
  }
}
