/**
 * The summary index of the two newest snapshots: one entry projected from
 * each buffered document, upserted under its `org_id` into
 * `summary_data_global`, and at the end partitioned by
 * `(status, primary_role_id)` into one YAML and one JSON summary per group.
 */
module Summary {
  import opened Wrappers
  import opened PyText
  import opened Convert
  import opened Classify
  import opened Output
  import OrderedDict

  /** One `summary_entry` dict. */
  datatype SummaryEntry = SummaryEntry(
    orgId: Value, name: Value, primaryRoleId: Value, roleIds: seq<Value>,
    status: Value, postCode: Value, uprn: Value)

  /** The entry as the dict that is dumped, keys in the order the source lists them. */
  function EntryValue(e: SummaryEntry): Value
  {
    Map([("org_id", e.orgId), ("name", e.name), ("primary_role_id", e.primaryRoleId),
         ("role_ids", List(e.roleIds)), ("status", e.status), ("post_code", e.postCode), ("uprn", e.uprn)])
  }

  /** `d.get(k, default)` on a dict value. */
  function Field(d: seq<(string, Value)>, k: string, default: Value): Value
  {
    OrderedDict.GetOr(d, k, default)
  }

  /** `[role.get("id", "Unknown") for role in roles if isinstance(role, dict)]` */
  function MapIds(roles: seq<Value>): (r: seq<Value>)
    ensures |r| <= |roles|
  {
    if roles == [] then []
    else
      var last := roles[|roles| - 1];
      MapIds(roles[..|roles| - 1]) + (if last.Map? then [Field(last.fields, "id", Str(UNKNOWN))] else [])
  }

  /**
   * `roles = content.get("Roles", {}).get("Role", [])`, a single dict wrapped
   * in a list, and the ids of its dict elements. A `Roles` entry that is not a
   * dict has no `.get`; a string `Role` iterates over characters, none of
   * them a dict.
   */
  function RoleIds(content: seq<(string, Value)>): Result<seq<Value>>
  {
    var roles := Field(content, "Roles", Map([]));
    if !roles.Map? then Fail(AttributeError)
    else match Field(roles.fields, "Role", List([]))
      case Map(m) => Ok(MapIds([Map(m)]))
      case List(items) => Ok(MapIds(items))
      case Str(_) => Ok([])
      case Null => Fail(TypeError)
  }

  /** The summary entry of one buffered document (`content`). */
  function EntryOf(content: Value): Result<SummaryEntry>
  {
    if !content.Map? then Fail(AttributeError)
    else match RoleIds(content.fields)
      case Fail(f) => Fail(f)
      case Ok(ids) =>
        var md := Field(content.fields, "metadata", Null);
        // Every buffered document carries a dict `metadata`; the `!md.Map?`
        // case (an `AttributeError` in Python) is never reached from a
        // pool task, and is folded into `KeyError` here.
        if !md.Map? || "org_id" !in OrderedDict.Keys(md.fields) || "role_id" !in OrderedDict.Keys(md.fields) then
          Fail(KeyError)
        else
          Ok(SummaryEntry(
            OrderedDict.Get(md.fields, "org_id"), Field(content.fields, "Name", Str(UNKNOWN)),
            OrderedDict.Get(md.fields, "role_id"), ids,
            Field(md.fields, "status", Str(UNKNOWN)), Field(md.fields, "post_code", Str(UNKNOWN)),
            Field(md.fields, "uprn", Str(UNKNOWN))))
  }

  /** A dict `Roles` whose `Role` is not `None` yields its role ids. */
  lemma RoleIdsOk(v: Value)
    requires v.Map?
    requires "Roles" in OrderedDict.Keys(v.fields) ==> OrderedDict.Get(v.fields, "Roles").Map?
    requires "Roles" in OrderedDict.Keys(v.fields) ==>
               var roles := OrderedDict.Get(v.fields, "Roles").fields;
               "Role" in OrderedDict.Keys(roles) ==> !OrderedDict.Get(roles, "Role").Null?
    ensures RoleIds(v.fields).Ok?
  {
  }

  /** The role ids depend on the `Roles` entry alone. */
  lemma RoleIdsOfRoles(a: seq<(string, Value)>, b: seq<(string, Value)>)
    requires Field(a, "Roles", Map([])) == Field(b, "Roles", Map([]))
    ensures RoleIds(a) == RoleIds(b)
  {
  }

  /**
   * For a document built by attaching the metadata to a converted
   * organisation whose `Roles` entry (if any) is a dict, the entry carries
   * the metadata values and the organisation's `Name` (default `"Unknown"`).
   */
  lemma EntryOfDocument(v: Value, orgId: string, status: Option<string>, roleId: string, postCode: string, uprn: string)
    requires v.Map?
    requires "Roles" in OrderedDict.Keys(v.fields) ==> OrderedDict.Get(v.fields, "Roles").Map?
    requires "Roles" in OrderedDict.Keys(v.fields) ==>
               var roles := OrderedDict.Get(v.fields, "Roles").fields;
               "Role" in OrderedDict.Keys(roles) ==> !OrderedDict.Get(roles, "Role").Null?
    ensures var md := LocatedMetadata(orgId, status, roleId, postCode, uprn);
            var doc := WithMetadata(v, md);
            RoleIds(v.fields).Ok?
            && EntryOf(doc) == Ok(SummaryEntry(Str(orgId), Field(v.fields, "Name", Str(UNKNOWN)), Str(roleId),
                                               RoleIds(v.fields).value, StrOrNull(status), Str(postCode), Str(uprn)))
  {
    var md := LocatedMetadata(orgId, status, roleId, postCode, uprn);
    var doc := WithMetadata(v, md);
    LocatedMetadataFields(orgId, status, roleId, postCode, uprn);
    OrderedDict.PutGetOr(v.fields, "metadata", Map(md), "metadata", Null);
    OrderedDict.PutGetOr(v.fields, "metadata", Map(md), "Roles", Map([]));
    OrderedDict.PutGetOr(v.fields, "metadata", Map(md), "Name", Str(UNKNOWN));
    RoleIdsOk(v);
    RoleIdsOfRoles(doc.fields, v.fields);
  }

  /**
   * Wrapping a single `Role` dict in a list does not change the role ids:
   * the summary sees the same ids with and without the normalisation.
   */
  lemma RoleIdsIgnoreNormalisation(v: Value)
    requires v.Map?
    ensures NormaliseRoles(v).Map? && RoleIds(NormaliseRoles(v).fields) == RoleIds(v.fields)
  {
    NormaliseRolesSpec(v);
    if HasSingleRole(v) {
      var r := NormaliseRoles(v);
      var roles := OrderedDict.Get(v.fields, "Roles").fields;
      var role := OrderedDict.Get(roles, "Role");
      var nr := OrderedDict.Get(r.fields, "Roles");
      assert Field(r.fields, "Roles", Map([])) == nr;
      assert Field(nr.fields, "Role", List([])) == List([role]);
      assert Field(v.fields, "Roles", Map([])) == Map(roles);
      assert Field(roles, "Role", List([])) == role;
    }
  }

  // ---------------------------------------------------------------------
  // The global summary

  /** `summary_data_global[entry["org_id"]] = entry` */
  function Upsert(summary: seq<(Value, SummaryEntry)>, e: SummaryEntry): seq<(Value, SummaryEntry)>
  {
    OrderedDict.Put(summary, e.orgId, e)
  }

  /**
   * The last write for an `org_id` wins, the other entries stay, and the map
   * keeps at most one entry per `org_id`.
   */
  lemma UpsertSpec(summary: seq<(Value, SummaryEntry)>, e: SummaryEntry)
    ensures var s := Upsert(summary, e);
            e.orgId in OrderedDict.Keys(s) && OrderedDict.Get(s, e.orgId) == e
            && (forall k :: k in OrderedDict.Keys(s) <==> k == e.orgId || k in OrderedDict.Keys(summary))
            && (forall k :: k != e.orgId && k in OrderedDict.Keys(summary) ==> OrderedDict.Get(s, k) == OrderedDict.Get(summary, k))
            && (OrderedDict.Distinct(summary) ==> OrderedDict.Distinct(s))
            && |s| == |summary| + (if e.orgId in OrderedDict.Keys(summary) then 0 else 1)
  {
    OrderedDict.PutSpec(summary, e.orgId, e);
  }

  /** Upserting a sequence of entries, in order. */
  function UpsertAll(summary: seq<(Value, SummaryEntry)>, es: seq<SummaryEntry>): seq<(Value, SummaryEntry)>
  {
    if es == [] then summary else Upsert(UpsertAll(summary, es[..|es| - 1]), es[|es| - 1])
  }

  /** The last entry upserted for an `org_id` is the one kept, and earlier keys stay. */
  lemma {:induction false} UpsertAllSpec(summary: seq<(Value, SummaryEntry)>, es: seq<SummaryEntry>, i: nat)
    requires i < |es| && forall j :: i < j < |es| ==> es[j].orgId != es[i].orgId
    ensures var s := UpsertAll(summary, es);
            es[i].orgId in OrderedDict.Keys(s) && OrderedDict.Get(s, es[i].orgId) == es[i]
  {
    var init := es[..|es| - 1];
    UpsertSpec(UpsertAll(summary, init), es[|es| - 1]);
    if i < |es| - 1 {
      UpsertAllSpec(summary, init, i);
    }
  }

  /** Upserting one sequence of entries and then another is upserting both in turn. */
  lemma {:induction false} UpsertAllAppend(summary: seq<(Value, SummaryEntry)>, a: seq<SummaryEntry>, b: seq<SummaryEntry>)
    ensures UpsertAll(summary, a + b) == UpsertAll(UpsertAll(summary, a), b)
  {
    if b != [] {
      var init := b[..|b| - 1];
      assert (a + b)[..|a + b| - 1] == a + init;
      assert (a + b)[|a + b| - 1] == b[|b| - 1];
      UpsertAllAppend(summary, a, init);
    } else {
      assert a + b == a;
    }
  }

  /**
   * The summary holds at most one entry per `org_id`, and its keys are the
   * keys it had and the `org_id` of every entry upserted.
   */
  lemma {:induction false} UpsertAllKeys(summary: seq<(Value, SummaryEntry)>, es: seq<SummaryEntry>)
    requires OrderedDict.Distinct(summary)
    ensures var s := UpsertAll(summary, es);
            OrderedDict.Distinct(s)
            && forall k :: k in OrderedDict.Keys(s) <==> k in OrderedDict.Keys(summary) || exists i :: 0 <= i < |es| && es[i].orgId == k
  {
    if es != [] {
      var init := es[..|es| - 1];
      UpsertAllKeys(summary, init);
      UpsertSpec(UpsertAll(summary, init), es[|es| - 1]);
      forall k ensures k in OrderedDict.Keys(UpsertAll(summary, es)) <==>
                       k in OrderedDict.Keys(summary) || exists i :: 0 <= i < |es| && es[i].orgId == k
      {
        if exists i :: 0 <= i < |es| && es[i].orgId == k {
          var i :| 0 <= i < |es| && es[i].orgId == k;
          if i < |init| {
            assert init[i].orgId == k;
          }
        }
        if exists i :: 0 <= i < |init| && init[i].orgId == k {
          var i :| 0 <= i < |init| && init[i].orgId == k;
          assert es[i].orgId == k;
        }
      }
    }
  }

  // ---------------------------------------------------------------------
  // Collecting one batch

  /** The documents of a buffer, key by key, each key's in order. */
  function Documents(buf: Buffer): seq<Value>
  {
    if buf == [] then [] else Documents(buf[..|buf| - 1]) + Contents(buf[|buf| - 1].1)
  }

  /** The documents of two buffers one after the other. */
  lemma {:induction false} DocumentsAppend(a: Buffer, b: Buffer)
    ensures Documents(a + b) == Documents(a) + Documents(b)
  {
    if b != [] {
      var init := b[..|b| - 1];
      assert (a + b)[..|a + b| - 1] == a + init;
      assert (a + b)[|a + b| - 1] == b[|b| - 1];
      DocumentsAppend(a, init);
    } else {
      assert a + b == a;
    }
  }

  /** The documents of one folder more. */
  lemma DocumentsTake(buf: Buffer, i: nat)
    requires i < |buf|
    ensures Documents(buf[..i + 1]) == Documents(buf[..i]) + Contents(buf[i].1)
  {
    assert buf[..i + 1][..i] == buf[..i];
  }

  /** The document at position `q` of the list at position `p` is among the buffer's documents. */
  lemma DocumentsAt(buf: Buffer, p: nat, q: nat)
    requires p < |buf| && q < |buf[p].1|
    ensures buf[p].1[q].1 in Documents(buf)
  {
    assert buf == buf[..p + 1] + buf[p + 1..];
    DocumentsAppend(buf[..p + 1], buf[p + 1..]);
    DocumentsTake(buf, p);
    assert Contents(buf[p].1)[q] == buf[p].1[q].1;
  }

  /** The documents of a list up to one entry more. */
  lemma ContentsSnoc(entries: seq<(string, Value)>, j: nat)
    requires j < |entries|
    ensures Contents(entries[..j + 1]) == Contents(entries[..j]) + [entries[j].1]
  {
  }

  /** The documents of a list around its `j`-th entry. */
  lemma ContentsSplit(entries: seq<(string, Value)>, j: nat)
    requires j < |entries|
    ensures Contents(entries) == Contents(entries[..j]) + [entries[j].1] + Contents(entries[j + 1..])
  {
  }

  /** The documents of one buffer list. */
  function Contents(entries: seq<(string, Value)>): (r: seq<Value>)
    ensures |r| == |entries| && forall j :: 0 <= j < |entries| ==> r[j] == entries[j].1
  {
    seq(|entries|, j requires 0 <= j < |entries| => entries[j].1)
  }

  /**
   * The exception the summary loop raises on a list of documents: that of
   * the first document whose entry cannot be built.
   */
  function CollectFailure(docs: seq<Value>): Option<Failure>
  {
    if docs == [] then None
    else
      var f := CollectFailure(docs[..|docs| - 1]);
      if f.Some? then f else FailureOf(EntryOf(docs[|docs| - 1]))
  }

  /** The entries the summary loop upserts, in order, up to the first document without one. */
  function Collected(docs: seq<Value>): seq<SummaryEntry>
  {
    if docs == [] then []
    else
      var init := docs[..|docs| - 1];
      var r := EntryOf(docs[|docs| - 1]);
      if CollectFailure(init).None? && r.Ok? then Collected(init) + [r.value] else Collected(init)
  }

  /** The summary loop raises the first failure of `EntryOf` over the documents. */
  lemma {:induction false} CollectFailureIsFirst(docs: seq<Value>)
    ensures CollectFailure(docs) == FirstFailureOf(docs, EntryOf)
  {
    if docs != [] {
      CollectFailureIsFirst(docs[..|docs| - 1]);
    }
  }

  /** The summary loop fails exactly when some document has no entry. */
  lemma CollectFails(docs: seq<Value>)
    ensures CollectFailure(docs).None? <==> forall i :: 0 <= i < |docs| ==> EntryOf(docs[i]).Ok?
  {
    CollectFailureIsFirst(docs);
    FirstFailureOfSpec(docs, EntryOf);
  }

  /** A summary loop that does not fail upserts one entry per document. */
  lemma {:induction false} CollectLength(docs: seq<Value>)
    requires CollectFailure(docs).None?
    ensures |Collected(docs)| == |docs|
  {
    if docs != [] {
      var init := docs[..|docs| - 1];
      assert CollectFailure(init).None?;
      CollectLength(init);
    }
  }

  /** A summary loop that does not fail upserts, at `j`, the entry of the document at `j`. */
  lemma {:induction false} CollectAt(docs: seq<Value>, j: nat)
    requires CollectFailure(docs).None? && j < |docs|
    ensures |Collected(docs)| == |docs|
    ensures EntryOf(docs[j]).Ok? && Collected(docs)[j] == EntryOf(docs[j]).value
  {
    var init := docs[..|docs| - 1];
    assert CollectFailure(init).None?;
    CollectLength(init);
    if j < |init| {
      CollectAt(init, j);
      assert docs[j] == init[j];
    }
  }

  /** A summary loop that does not fail upserts the entry of every document, in order. */
  lemma CollectAll(docs: seq<Value>)
    requires CollectFailure(docs).None?
    ensures |Collected(docs)| == |docs|
    ensures forall j :: 0 <= j < |docs| ==> EntryOf(docs[j]).Ok? && Collected(docs)[j] == EntryOf(docs[j]).value
  {
    CollectLength(docs);
    forall j | 0 <= j < |docs|
      ensures EntryOf(docs[j]).Ok? && Collected(docs)[j] == EntryOf(docs[j]).value
    {
      CollectAt(docs, j);
    }
  }

  /** The entries after one more document that has an entry. */
  lemma CollectedSnoc(docs: seq<Value>, d: Value)
    requires CollectFailure(docs).None? && EntryOf(d).Ok?
    ensures CollectFailure(docs + [d]).None?
    ensures Collected(docs + [d]) == Collected(docs) + [EntryOf(d).value]
  {
    assert (docs + [d])[..|docs|] == docs && (docs + [d])[|docs|] == d;
  }

  /** The entries and the failure when the next document has no entry. */
  lemma CollectedFail(docs: seq<Value>, d: Value)
    requires CollectFailure(docs).None? && EntryOf(d).Fail?
    ensures Collected(docs + [d]) == Collected(docs)
    ensures CollectFailure(docs + [d]) == Some(EntryOf(d).failure)
  {
    assert (docs + [d])[..|docs|] == docs && (docs + [d])[|docs|] == d;
  }

  /** After the first document without an entry, later documents change nothing. */
  lemma {:induction false} CollectStable(docs: seq<Value>, more: seq<Value>)
    requires CollectFailure(docs).Some?
    ensures Collected(docs + more) == Collected(docs)
    ensures CollectFailure(docs + more) == CollectFailure(docs)
  {
    if more == [] {
      assert docs + more == docs;
    } else {
      var init := more[..|more| - 1];
      CollectStable(docs, init);
      assert (docs + more)[..|docs + more| - 1] == docs + init;
    }
  }

  /**
   * A summary loop that fails does so with the exception of the first
   * document without an entry, having upserted the entries of every
   * document before it, in order.
   */
  lemma CollectFailsAt(docs: seq<Value>, i: nat)
    requires i < |docs| && EntryOf(docs[i]).Fail? && forall j :: 0 <= j < i ==> EntryOf(docs[j]).Ok?
    ensures CollectFailure(docs) == Some(EntryOf(docs[i]).failure)
    ensures |Collected(docs)| == i && forall j :: 0 <= j < i ==> Collected(docs)[j] == EntryOf(docs[j]).value
  {
    var pre := docs[..i];
    assert forall j :: 0 <= j < i ==> pre[j] == docs[j];
    CollectFails(pre);
    CollectAll(pre);
    CollectedFail(pre, docs[i]);
    TakeSnoc(docs, i);
    TakeDrop(docs, i + 1);
    CollectStable(docs[..i + 1], docs[i + 1..]);
  }

  /**
   * The summary loop over one folder of the batch buffer: the entry of each
   * document is upserted in turn, stopping at the first document whose
   * entry cannot be built.
   */
  method CollectFolder(ghost s0: seq<(Value, SummaryEntry)>, summary: seq<(Value, SummaryEntry)>, ghost docs: seq<Value>,
                       entries: seq<(string, Value)>)
    returns (summary': seq<(Value, SummaryEntry)>, failure: Option<Failure>)
    requires CollectFailure(docs).None? && summary == UpsertAll(s0, Collected(docs))
    ensures summary' == UpsertAll(s0, Collected(docs + Contents(entries)))
    ensures failure == CollectFailure(docs + Contents(entries))
  {
    summary' := summary;
    ghost var ds := docs;
    for j := 0 to |entries|
      invariant ds == docs + Contents(entries[..j]) && CollectFailure(ds).None?
      invariant summary' == UpsertAll(s0, Collected(ds))
    {
      var content := entries[j].1;
      var entry := EntryOf(content);
      ContentsSnoc(entries, j);
      AppendAssoc(docs, Contents(entries[..j]), [content]);
      if entry.Fail? {
        CollectedFail(ds, content);
        ContentsSplit(entries, j);
        AppendAssoc(docs, Contents(entries[..j]) + [content], Contents(entries[j + 1..]));
        CollectStable(ds + [content], Contents(entries[j + 1..]));
        return summary', Some(entry.failure);
      }
      CollectedSnoc(ds, content);
      summary' := Upsert(summary', entry.value);
      ds := ds + [content];
    }
    assert entries[..|entries|] == entries;
    failure := None;
  }

  /** Once the documents of the first `n` folders fail, the later folders change nothing. */
  lemma CollectStopsAt(buf: Buffer, n: nat)
    requires n <= |buf| && CollectFailure(Documents(buf[..n])).Some?
    ensures Collected(Documents(buf)) == Collected(Documents(buf[..n]))
    ensures CollectFailure(Documents(buf)) == CollectFailure(Documents(buf[..n]))
  {
    assert buf == buf[..n] + buf[n..];
    DocumentsAppend(buf[..n], buf[n..]);
    CollectStable(Documents(buf[..n]), Documents(buf[n..]));
  }

  /**
   * The loop of `process_batch_elements` over the batch buffer: each folder
   * is copied to the JSON buffer under its rewritten name, and the summary
   * entry of each of its documents is upserted into the summary, stopping
   * at the first document whose entry cannot be built.
   */
  method CollectBatch(summary: seq<(Value, SummaryEntry)>, buf: Buffer, yamlBase: string, jsonBase: string)
    returns (summary': seq<(Value, SummaryEntry)>, json: Buffer, failure: Option<Failure>)
    ensures summary' == UpsertAll(summary, Collected(Documents(buf)))
    ensures failure == CollectFailure(Documents(buf))
    ensures failure.None? ==> json == JsonBuffer(buf, yamlBase, jsonBase)
  {
    summary' := summary;
    json := [];
    for i := 0 to |buf|
      invariant CollectFailure(Documents(buf[..i])).None?
      invariant summary' == UpsertAll(summary, Collected(Documents(buf[..i])))
      invariant json == JsonBuffer(buf[..i], yamlBase, jsonBase)
    {
      var (folderPath, yamlData) := buf[i];
      assert buf[..i + 1][..i] == buf[..i];
      json := OrderedDict.Put(json, Replace(folderPath, yamlBase, jsonBase), yamlData);
      summary', failure := CollectFolder(summary, summary', Documents(buf[..i]), yamlData);
      DocumentsTake(buf, i);
      if failure.Some? {
        CollectStopsAt(buf, i + 1);
        return;
      }
    }
    assert buf[..|buf|] == buf;
    failure := None;
  }

  // ---------------------------------------------------------------------
  // Grouping

  /** `(summary_entry.get("status", "Unknown"), summary_entry.get("primary_role_id", "Unknown"))` */
  function GroupKey(e: SummaryEntry): (Value, Value)
  {
    (e.status, e.primaryRoleId)
  }

  /** The groups, in order of first appearance, each with its entries in order. */
  function Group(es: seq<SummaryEntry>): seq<((Value, Value), seq<SummaryEntry>)>
  {
    if es == [] then []
    else
      var last := es[|es| - 1];
      OrderedDict.AppendAt(Group(es[..|es| - 1]), GroupKey(last), last)
  }

  /** The entries with the given key, in order. */
  function WithKey(es: seq<SummaryEntry>, k: (Value, Value)): seq<SummaryEntry>
  {
    if es == [] then []
    else
      var last := es[|es| - 1];
      WithKey(es[..|es| - 1], k) + (if GroupKey(last) == k then [last] else [])
  }

  /**
   * The grouping is a partition: every entry's key is a group, a group's key
   * is that of some entry, no key is listed twice, and each group holds
   * exactly the entries with its key, in their original order (so no group is
   * empty and every entry is in exactly one group).
   */
  lemma {:induction false} GroupSpec(es: seq<SummaryEntry>)
    ensures var g := Group(es);
            OrderedDict.Distinct(g)
            && (forall k :: k in OrderedDict.Keys(g) <==> |WithKey(es, k)| > 0)
            && (forall k :: k in OrderedDict.Keys(g) ==> OrderedDict.Get(g, k) == WithKey(es, k))
  {
    if es != [] {
      var init := es[..|es| - 1];
      var last := es[|es| - 1];
      GroupSpec(init);
      var g0 := Group(init);
      OrderedDict.AppendAtSpec(g0, GroupKey(last), last);
      forall k ensures k in OrderedDict.Keys(Group(es)) <==> |WithKey(es, k)| > 0 {
      }
      forall k | k in OrderedDict.Keys(Group(es)) ensures OrderedDict.Get(Group(es), k) == WithKey(es, k) {
        if k == GroupKey(last) && k !in OrderedDict.Keys(g0) {
          assert |WithKey(init, k)| == 0;
        }
      }
    }
  }

  /** Every entry is in the group of its own key. */
  lemma {:induction false} KeyHasMembers(es: seq<SummaryEntry>, i: nat)
    requires i < |es|
    ensures es[i] in WithKey(es, GroupKey(es[i]))
  {
    if i < |es| - 1 {
      KeyHasMembers(es[..|es| - 1], i);
    }
  }

  /** The group of an entry's key records it among its members. */
  lemma EveryEntryGrouped(es: seq<SummaryEntry>, i: nat)
    requires i < |es|
    ensures GroupKey(es[i]) in OrderedDict.Keys(Group(es))
    ensures es[i] in OrderedDict.Get(Group(es), GroupKey(es[i]))
  {
    KeyHasMembers(es, i);
    GroupSpec(es);
  }

  /** The YAML and JSON summary files of the groups, in group order. */
  function SummaryWrites(groups: seq<((Value, Value), seq<SummaryEntry>)>, yamlBase: string, jsonBase: string)
    : Result<seq<(string, Value)>>
  {
    if groups == [] then Ok([])
    else
      var (key, entries) := groups[|groups| - 1];
      match SummaryWrites(groups[..|groups| - 1], yamlBase, jsonBase)
      case Fail(f) => Fail(f)
      case Ok(ws) =>
        if !key.0.Str? || !key.1.Str? then Fail(TypeError)
        else
          Ok(ws + GroupFiles(key.0.s, key.1.s, entries, yamlBase, jsonBase))
  }

  /** The two summary files of one group: its YAML summary, then its JSON summary. */
  function GroupFiles(status: string, roleId: string, entries: seq<SummaryEntry>, yamlBase: string, jsonBase: string)
    : seq<(string, Value)>
  {
    [(SummaryPath(yamlBase, status, roleId, "summary.yaml"), GroupContent(entries)),
     (SummaryPath(jsonBase, status, roleId, "summary.json"), GroupContent(entries))]
  }

  /** The list of entry dicts dumped into one summary file. */
  function GroupContent(entries: seq<SummaryEntry>): Value
  {
    List(seq(|entries|, j requires 0 <= j < |entries| => EntryValue(entries[j])))
  }

  /** `os.path.join(os.path.join(base, status, role_id), file)` */
  function SummaryPath(base: string, status: string, roleId: string, file: string): string
  {
    PathJoin(PathJoin(PathJoin(base, status), roleId), file)
  }

  /** With every group's status and role id a string, there are exactly two summary files per group. */
  lemma {:induction false} SummaryWritesOk(groups: seq<((Value, Value), seq<SummaryEntry>)>, yamlBase: string, jsonBase: string)
    requires forall j :: 0 <= j < |groups| ==> groups[j].0.0.Str? && groups[j].0.1.Str?
    ensures var r := SummaryWrites(groups, yamlBase, jsonBase);
            r.Ok? && |r.value| == 2 * |groups|
  {
    if groups != [] {
      SummaryWritesOk(groups[..|groups| - 1], yamlBase, jsonBase);
    }
  }

  /**
   * The summary files of group `i`, in group order: its YAML summary and
   * then its JSON summary, each under the group's status and role id,
   * each holding the group's entries.
   */
  lemma {:induction false} SummaryWritesAt(groups: seq<((Value, Value), seq<SummaryEntry>)>, yamlBase: string, jsonBase: string, i: nat)
    requires forall j :: 0 <= j < |groups| ==> groups[j].0.0.Str? && groups[j].0.1.Str?
    requires i < |groups|
    ensures var r := SummaryWrites(groups, yamlBase, jsonBase);
            var key := groups[i].0;
            r.Ok? && 2 * i + 1 < |r.value|
            && r.value[2 * i] == (SummaryPath(yamlBase, key.0.s, key.1.s, "summary.yaml"), GroupContent(groups[i].1))
            && r.value[2 * i + 1] == (SummaryPath(jsonBase, key.0.s, key.1.s, "summary.json"), GroupContent(groups[i].1))
  {
    var n := |groups| - 1;
    var init := groups[..n];
    SummaryWritesLast(groups, yamlBase, jsonBase);
    var ws := SummaryWrites(init, yamlBase, jsonBase).value;
    var (key, entries) := groups[n];
    var last := GroupFiles(key.0.s, key.1.s, entries, yamlBase, jsonBase);
    if i < n {
      SummaryWritesAt(init, yamlBase, jsonBase, i);
      assert groups[i] == init[i];
      assert (ws + last)[2 * i] == ws[2 * i] && (ws + last)[2 * i + 1] == ws[2 * i + 1];
    } else {
      assert |ws| == 2 * i;
      assert (ws + last)[2 * i] == last[0] && (ws + last)[2 * i + 1] == last[1];
    }
  }

  /** The summary files of the groups: those of every group but the last, then the last group's two, unless a path cannot be joined. */
  lemma SummaryWritesStep(groups: seq<((Value, Value), seq<SummaryEntry>)>, yamlBase: string, jsonBase: string)
    requires groups != []
    ensures var init := SummaryWrites(groups[..|groups| - 1], yamlBase, jsonBase);
            var (key, entries) := groups[|groups| - 1];
            SummaryWrites(groups, yamlBase, jsonBase)
            == if init.Fail? then init
               else if !key.0.Str? || !key.1.Str? then Fail(TypeError)
               else Ok(init.value + GroupFiles(key.0.s, key.1.s, entries, yamlBase, jsonBase))
  {
  }

  /** The summary files of every group but the last, then the last group's two. */
  lemma SummaryWritesLast(groups: seq<((Value, Value), seq<SummaryEntry>)>, yamlBase: string, jsonBase: string)
    requires forall j :: 0 <= j < |groups| ==> groups[j].0.0.Str? && groups[j].0.1.Str?
    requires groups != []
    ensures var init := groups[..|groups| - 1];
            var (key, entries) := groups[|groups| - 1];
            SummaryWrites(init, yamlBase, jsonBase).Ok? && |SummaryWrites(init, yamlBase, jsonBase).value| == 2 * |init|
            && SummaryWrites(groups, yamlBase, jsonBase)
               == Ok(SummaryWrites(init, yamlBase, jsonBase).value + GroupFiles(key.0.s, key.1.s, entries, yamlBase, jsonBase))
  {
    SummaryWritesOk(groups[..|groups| - 1], yamlBase, jsonBase);
  }

  /** The position of the first group whose status or role id is not a string, or the number of groups. */
  function FirstUnwritable(groups: seq<((Value, Value), seq<SummaryEntry>)>): (n: nat)
    ensures n <= |groups|
    ensures forall j :: 0 <= j < n ==> groups[j].0.0.Str? && groups[j].0.1.Str?
    ensures n < |groups| ==> !(groups[n].0.0.Str? && groups[n].0.1.Str?)
  {
    if groups == [] then 0
    else
      var n := FirstUnwritable(groups[..|groups| - 1]);
      var key := groups[|groups| - 1].0;
      if n < |groups| - 1 || !key.0.Str? || !key.1.Str? then n else |groups|
  }

  /** The summary files of one more writable group. */
  lemma SummaryWritesSnoc(groups: seq<((Value, Value), seq<SummaryEntry>)>, yamlBase: string, jsonBase: string, i: nat)
    requires i < |groups| && SummaryWrites(groups[..i], yamlBase, jsonBase).Ok?
    requires groups[i].0.0.Str? && groups[i].0.1.Str?
    ensures var (key, entries) := groups[i];
            SummaryWrites(groups[..i + 1], yamlBase, jsonBase)
            == Ok(SummaryWrites(groups[..i], yamlBase, jsonBase).value + GroupFiles(key.0.s, key.1.s, entries, yamlBase, jsonBase))
  {
    assert groups[..i + 1][..i] == groups[..i];
  }

  /**
   * `os.path.join` raises a `TypeError` at the first group whose status or
   * role id is not a string (`FirstUnwritable`): the groups before it are
   * writable, and the summary as a whole is writable exactly when there is
   * no such group.
   */
  lemma {:induction false} SummaryWritesFailure(groups: seq<((Value, Value), seq<SummaryEntry>)>, yamlBase: string, jsonBase: string)
    ensures var n := FirstUnwritable(groups);
            SummaryWrites(groups[..n], yamlBase, jsonBase).Ok?
            && (SummaryWrites(groups, yamlBase, jsonBase).Ok? <==> n == |groups|)
            && (SummaryWrites(groups, yamlBase, jsonBase).Fail? ==> SummaryWrites(groups, yamlBase, jsonBase).failure == TypeError)
  {
    if groups != [] {
      var init := groups[..|groups| - 1];
      var key := groups[|groups| - 1].0;
      SummaryWritesFailure(init, yamlBase, jsonBase);
      SummaryWritesStep(groups, yamlBase, jsonBase);
      var n0 := FirstUnwritable(init);
      var n := FirstUnwritable(groups);
      if n0 < |init| {
        assert n == n0;
        assert groups[..n] == init[..n];
        assert SummaryWrites(init, yamlBase, jsonBase).Fail?;
      } else if key.0.Str? && key.1.Str? {
        assert n == |groups|;
        assert init[..n0] == init;
        assert groups[..n] == groups;
      } else {
        assert n == |init|;
        assert init[..n0] == init;
        assert groups[..n] == init;
        assert SummaryWrites(groups, yamlBase, jsonBase) == Fail(TypeError);
      }
    }
  }

  /** The grouping loop of `write_summary_files`. */
  method GroupEntries(entries: seq<SummaryEntry>) returns (grouped: seq<((Value, Value), seq<SummaryEntry>)>)
    ensures grouped == Group(entries)
  {
    grouped := [];
    for i := 0 to |entries|
      invariant grouped == Group(entries[..i])
    {
      assert entries[..i + 1][..i] == entries[..i];
      grouped := OrderedDict.AppendAt(grouped, GroupKey(entries[i]), entries[i]);
    }
    assert entries[..|entries|] == entries;
  }

  /**
   * The writing loop of `write_summary_files`: one YAML and one JSON summary
   * per group, in group order, until the first group whose path cannot be
   * joined, where a `TypeError` is raised.
   */
  method WriteGroups(groups: seq<((Value, Value), seq<SummaryEntry>)>, yamlBase: string, jsonBase: string)
    returns (writes: seq<(string, Value)>, failure: Option<Failure>)
    ensures var n := FirstUnwritable(groups);
            SummaryWrites(groups[..n], yamlBase, jsonBase).Ok?
            && writes == SummaryWrites(groups[..n], yamlBase, jsonBase).value
            && failure == (if n < |groups| then Some(TypeError) else None)
  {
    SummaryWritesFailure(groups, yamlBase, jsonBase);
    ghost var n := FirstUnwritable(groups);
    writes := [];
    assert groups[..0] == [];
    for i := 0 to |groups|
      invariant i <= n && SummaryWrites(groups[..i], yamlBase, jsonBase).Ok?
      invariant writes == SummaryWrites(groups[..i], yamlBase, jsonBase).value
    {
      var (key, summaryEntries) := groups[i];
      if !key.0.Str? || !key.1.Str? {
        assert i == n;
        return writes, Some(TypeError);
      }
      SummaryWritesSnoc(groups, yamlBase, jsonBase, i);
      var (status, roleId) := (key.0.s, key.1.s);
      writes := writes + [(SummaryPath(yamlBase, status, roleId, "summary.yaml"), GroupContent(summaryEntries)),
                          (SummaryPath(jsonBase, status, roleId, "summary.json"), GroupContent(summaryEntries))];
      assert writes == SummaryWrites(groups[..i], yamlBase, jsonBase).value + GroupFiles(status, roleId, summaryEntries, yamlBase, jsonBase);
    }
    failure := None;
  }

  /**
   * `write_summary_files`: the summary's entries, in insertion order, are
   * grouped by `(status, primary_role_id)` and the groups written in turn.
   */
  method WriteSummaryFiles(summary: seq<(Value, SummaryEntry)>, yamlBase: string, jsonBase: string)
    returns (writes: seq<(string, Value)>, failure: Option<Failure>)
    ensures var groups := Group(OrderedDict.Values(summary));
            var n := FirstUnwritable(groups);
            SummaryWrites(groups[..n], yamlBase, jsonBase).Ok?
            && writes == SummaryWrites(groups[..n], yamlBase, jsonBase).value
            && failure == (if n < |groups| then Some(TypeError) else None)
    ensures var r := SummaryWrites(Group(OrderedDict.Values(summary)), yamlBase, jsonBase);
            (failure.None? <==> r.Ok?) && (failure.None? ==> writes == r.value)
  {
    var grouped := GroupEntries(OrderedDict.Values(summary));
    writes, failure := WriteGroups(grouped, yamlBase, jsonBase);
    SummaryWritesFailure(grouped, yamlBase, jsonBase);
    assert grouped[..|grouped|] == grouped;
  }

  /** An empty summary gives no groups and so no summary files. */
  lemma EmptySummary(yamlBase: string, jsonBase: string)
    ensures Group([]) == [] && SummaryWrites([], yamlBase, jsonBase) == Ok([])
  {
  }
}
