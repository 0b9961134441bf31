/**
 * `process_element`: an XML element becomes a nested value. Attributes come
 * first, in document order; then each child under its tag with the namespace
 * cut off. A tag seen again promotes the value to a list that gathers every
 * occurrence in order. An element with nothing but non-blank text becomes its
 * stripped text. The two newest snapshots also turn a single map-shaped
 * `Roles.Role` into a one-element list.
 */
module Convert {
  import opened Wrappers
  import opened PyText
  import opened Xml
  import OrderedDict

  /** The values `process_element` builds: Python `None`, `str`, `dict` and `list`. */
  datatype Value = Null | Str(s: string) | Map(fields: seq<(string, Value)>) | List(items: seq<Value>)

  /** The attributes as dict entries, in document order. */
  function AttrFields(attrs: seq<(string, string)>): (r: seq<(string, Value)>)
    ensures |r| == |attrs|
    ensures forall i :: 0 <= i < |attrs| ==> r[i] == (attrs[i].0, Str(attrs[i].1))
  {
    seq(|attrs|, i requires 0 <= i < |attrs| => (attrs[i].0, Str(attrs[i].1)))
  }

  /**
   * Storing one child's value under `tag`: a new key takes the value itself;
   * an existing key becomes (or stays) a list with the value appended.
   */
  function AddChild(data: seq<(string, Value)>, tag: string, cv: Value): seq<(string, Value)>
  {
    if tag in OrderedDict.Keys(data) then
      var prev := OrderedDict.Get(data, tag);
      OrderedDict.Put(data, tag, List((if prev.List? then prev.items else [prev]) + [cv]))
    else OrderedDict.Put(data, tag, cv)
  }

  /** Storing a child adds its tag as a key at the end, unless the tag is already a key. */
  lemma AddChildKeys(data: seq<(string, Value)>, tag: string, cv: Value)
    ensures OrderedDict.Keys(AddChild(data, tag, cv))
            == if tag in OrderedDict.Keys(data) then OrderedDict.Keys(data) else OrderedDict.Keys(data) + [tag]
    ensures OrderedDict.Distinct(data) ==> OrderedDict.Distinct(AddChild(data, tag, cv))
  {
    if tag in OrderedDict.Keys(data) {
      var prev := OrderedDict.Get(data, tag);
      OrderedDict.PutSpec(data, tag, List((if prev.List? then prev.items else [prev]) + [cv]));
    } else {
      OrderedDict.PutSpec(data, tag, cv);
    }
  }

  /** What storing a child does to the entry under each key. */
  lemma AddChildGet(data: seq<(string, Value)>, tag: string, cv: Value, k: string)
    ensures k in OrderedDict.Keys(AddChild(data, tag, cv)) <==> k == tag || k in OrderedDict.Keys(data)
    ensures k == tag && tag !in OrderedDict.Keys(data) ==> OrderedDict.Get(AddChild(data, tag, cv), k) == cv
    ensures k == tag && tag in OrderedDict.Keys(data) ==>
              var prev := OrderedDict.Get(data, tag);
              OrderedDict.Get(AddChild(data, tag, cv), k) == List((if prev.List? then prev.items else [prev]) + [cv])
    ensures k != tag && k in OrderedDict.Keys(data) ==> OrderedDict.Get(AddChild(data, tag, cv), k) == OrderedDict.Get(data, k)
  {
    if tag in OrderedDict.Keys(data) {
      var prev := OrderedDict.Get(data, tag);
      OrderedDict.PutSpec(data, tag, List((if prev.List? then prev.items else [prev]) + [cv]));
    } else {
      OrderedDict.PutSpec(data, tag, cv);
    }
  }

  /** The dict after the attributes and the first `n` children have been stored. */
  function RawFields(e: Element, n: nat, wrapRoles: bool): seq<(string, Value)>
    requires n <= |e.children|
    decreases e, 0, n
  {
    if n == 0 then AttrFields(e.attrs)
    else
      var c := e.children[n - 1];
      AddChild(RawFields(e, n - 1, wrapRoles), LocalName(c.tag), ElementValue(c, wrapRoles))
  }

  /** The text rule: an empty dict is replaced by the stripped text when that is not blank. */
  predicate IsTextScalar(data: seq<(string, Value)>, text: Option<string>)
  {
    |data| == 0 && text.Some? && Strip(text.value) != []
  }

  /** The value built from the stored entries and the text rule, before the `Roles` fix. */
  function BuiltValue(e: Element, wrapRoles: bool): (r: Value)
    ensures r.Str? || r.Map?
    decreases e, 1, 0
  {
    var data := RawFields(e, |e.children|, wrapRoles);
    if IsTextScalar(data, e.text) then Str(Strip(e.text.value)) else Map(data)
  }

  /**
   * What `process_element(e)` returns when it returns; `wrapRoles` selects
   * the snapshots that normalise `Roles.Role` (importdata.py and
   * import-v12.py), where the call can raise instead (`ProcessResult`).
   */
  function ElementValue(e: Element, wrapRoles: bool): (r: Value)
    ensures r.Str? || r.Map?
    decreases e, 2, 0
  {
    var v := BuiltValue(e, wrapRoles);
    if wrapRoles then NormaliseRoles(v) else v
  }

  /** A map-shaped `Roles` entry holding a map-shaped `Role` entry. */
  predicate HasSingleRole(v: Value)
  {
    v.Map? && "Roles" in OrderedDict.Keys(v.fields)
    && var roles := OrderedDict.Get(v.fields, "Roles");
       roles.Map? && "Role" in OrderedDict.Keys(roles.fields)
       && OrderedDict.Get(roles.fields, "Role").Map?
  }

  /**
   * The fix's test `"Roles" in data and "Role" in data["Roles"]` raises
   * `TypeError`: on a string holding `Roles` (`in` is a substring test, and
   * the string is then indexed by a string), and on a dict whose `Roles`
   * entry is a string holding `Role` or a list holding the string `"Role"`
   * (that entry is then indexed by `"Role"`) or is `None` (`in` on `None`).
   */
  predicate RolesTestRaises(v: Value)
  {
    match v
    case Str(s) => Occurs(s, "Roles")
    case Map(fields) =>
      "Roles" in OrderedDict.Keys(fields)
      && (match OrderedDict.Get(fields, "Roles")
          case Str(s) => Occurs(s, "Role")
          case List(items) => Str("Role") in items
          case Null => true
          case Map(_) => false)
    case _ => false
  }

  /** The fix's test raises for `e` or for an element below it. */
  predicate RaisesIn(e: Element)
    decreases e, 1
  {
    RaisesBefore(e, |e.children|) || RolesTestRaises(BuiltValue(e, true))
  }

  /** The test raises within one of the first `j` children of `e`. */
  predicate RaisesBefore(e: Element, j: nat)
    requires j <= |e.children|
    decreases e, 0, j
  {
    j > 0 && (RaisesBefore(e, j - 1) || RaisesIn(e.children[j - 1]))
  }

  /** `RaisesBefore` holds exactly when some child before `j` raises. */
  lemma {:induction false} RaisesBeforeSpec(e: Element, j: nat)
    requires j <= |e.children|
    ensures RaisesBefore(e, j) <==> exists k :: 0 <= k < j && RaisesIn(e.children[k])
  {
    if j > 0 {
      RaisesBeforeSpec(e, j - 1);
    }
  }

  /**
   * The outcome of `process_element(e)`: a `TypeError` from the `Roles` test
   * anywhere in the tree ends the whole conversion; otherwise the value.
   */
  function ProcessResult(e: Element, wrapRoles: bool): Result<Value>
  {
    if wrapRoles && RaisesIn(e) then Fail(TypeError) else Ok(ElementValue(e, wrapRoles))
  }

  /**
   * `data["Roles"]["Role"] = [data["Roles"]["Role"]]` when that entry is a
   * single dict; when the test does not raise, any other value is returned
   * as it is.
   */
  function NormaliseRoles(v: Value): (r: Value)
    ensures r.Map? <==> v.Map?
    ensures v.Str? ==> r == v
  {
    if HasSingleRole(v) then
      var roles := OrderedDict.Get(v.fields, "Roles").fields;
      var role := OrderedDict.Get(roles, "Role");
      Map(OrderedDict.Put(v.fields, "Roles", Map(OrderedDict.Put(roles, "Role", List([role])))))
    else v
  }

  /**
   * The fix touches only `Roles.Role`: every key keeps its place, every other
   * entry its value, and afterwards no single `Role` map is left.
   */
  lemma NormaliseRolesSpec(v: Value)
    ensures var r := NormaliseRoles(v);
            (r.Map? ==> OrderedDict.Keys(r.fields) == OrderedDict.Keys(v.fields))
            && (r.Map? ==> forall k :: k in OrderedDict.Keys(v.fields) && k != "Roles" ==>
                             OrderedDict.Get(r.fields, k) == OrderedDict.Get(v.fields, k))
            && (!HasSingleRole(v) ==> r == v)
            && !HasSingleRole(r)
    ensures HasSingleRole(v) ==>
              var roles := OrderedDict.Get(v.fields, "Roles").fields;
              var nr := OrderedDict.Get(NormaliseRoles(v).fields, "Roles");
              nr.Map? && OrderedDict.Keys(nr.fields) == OrderedDict.Keys(roles)
              && OrderedDict.Get(nr.fields, "Role") == List([OrderedDict.Get(roles, "Role")])
  {
    if HasSingleRole(v) {
      var roles := OrderedDict.Get(v.fields, "Roles").fields;
      var nroles := OrderedDict.Put(roles, "Role", List([OrderedDict.Get(roles, "Role")]));
      OrderedDict.PutSpec(roles, "Role", List([OrderedDict.Get(roles, "Role")]));
      OrderedDict.PutSpec(v.fields, "Roles", Map(nroles));
    }
  }

  /** Storing the next attribute appends it: attribute names are distinct. */
  lemma StoreAttribute(attrs: Attrs, i: nat)
    requires i < |attrs|
    ensures OrderedDict.Put(AttrFields(attrs[..i]), attrs[i].0, Str(attrs[i].1)) == AttrFields(attrs[..i + 1])
  {
    var data := AttrFields(attrs[..i]);
    var name := attrs[i].0;
    forall j | 0 <= j < i ensures OrderedDict.Keys(data)[j] != name {
      assert attrs[j].0 != attrs[i].0;
    }
    assert attrs[..i + 1] == attrs[..i] + [attrs[i]];
  }

  /**
   * The recursive conversion as the source writes it: a loop storing the
   * attributes, a loop storing each converted child (a child's exception
   * ends the call), then the text rule and, for the newer snapshots, the
   * `Roles.Role` fix with its test.
   */
  method ProcessElement(e: Element, wrapRoles: bool) returns (r: Result<Value>)
    ensures r == ProcessResult(e, wrapRoles)
    decreases e
  {
    var data: seq<(string, Value)> := [];
    var i := 0;
    while i < |e.attrs|
      invariant 0 <= i <= |e.attrs|
      invariant data == AttrFields(e.attrs[..i])
    {
      var (name, value) := e.attrs[i];
      StoreAttribute(e.attrs, i);
      data := OrderedDict.Put(data, name, Str(value));
      i := i + 1;
    }
    assert e.attrs[..|e.attrs|] == e.attrs;
    assert data == RawFields(e, 0, wrapRoles);
    var j := 0;
    while j < |e.children|
      invariant 0 <= j <= |e.children|
      invariant data == RawFields(e, j, wrapRoles)
      invariant !(wrapRoles && RaisesBefore(e, j))
    {
      var child := e.children[j];
      var tag := LocalName(child.tag);
      var childResult := ProcessElement(child, wrapRoles);
      if childResult.Fail? {
        ChildRaises(e, j);
        return Fail(TypeError);
      }
      var childValue := childResult.value;
      assert RawFields(e, j + 1, wrapRoles) == AddChild(data, tag, childValue);
      if tag in OrderedDict.Keys(data) {
        var prev := OrderedDict.Get(data, tag);
        if !prev.List? {
          prev := List([prev]);
        }
        data := OrderedDict.Put(data, tag, List(prev.items + [childValue]));
      } else {
        data := OrderedDict.Put(data, tag, childValue);
      }
      j := j + 1;
    }
    var v: Value;
    if IsTextScalar(data, e.text) {
      v := Str(Strip(e.text.value));
    } else {
      v := Map(data);
    }
    assert v == BuiltValue(e, wrapRoles);
    ChildrenReturn(e, wrapRoles);
    if wrapRoles {
      if RolesTestRaises(v) {
        return Fail(TypeError);
      }
      v := NormaliseRoles(v);
    }
    r := Ok(v);
  }

  /** A child whose conversion raises makes the whole conversion raise. */
  lemma ChildRaises(e: Element, j: nat)
    requires j < |e.children| && ProcessResult(e.children[j], true).Fail?
    ensures ProcessResult(e, true) == Fail(TypeError)
  {
    RaisesBeforeSpec(e, |e.children|);
    assert RaisesIn(e.children[j]);
  }

  /** Once every child has returned, only the element's own test can raise. */
  lemma ChildrenReturn(e: Element, w: bool)
    requires !(w && RaisesBefore(e, |e.children|))
    ensures ProcessResult(e, w)
            == if w && RolesTestRaises(BuiltValue(e, w)) then Fail(TypeError)
               else Ok(if w then NormaliseRoles(BuiltValue(e, w)) else BuiltValue(e, w))
  {
  }

  /**
   * In the newer snapshots the conversion fails, always with `TypeError`,
   * exactly when the test raises somewhere in the tree, and otherwise
   * returns the value; in the older ones it always returns the value.
   */
  lemma ProcessResultSpec(e: Element, w: bool)
    ensures ProcessResult(e, w).Fail? <==> w && RaisesIn(e)
    ensures ProcessResult(e, w).Fail? ==> ProcessResult(e, w).failure == TypeError
    ensures ProcessResult(e, w).Ok? ==> ProcessResult(e, w).value == ElementValue(e, w)
  {
  }

  /**
   * A child holding only text in which `Roles` occurs makes the whole
   * conversion raise `TypeError` in the newer snapshots: the child's value
   * is that string, and `data["Roles"]` indexes it by a string.
   */
  lemma RolesTextRaises(e: Element, i: nat)
    requires i < |e.children|
    requires var c := e.children[i];
             c.attrs == [] && c.children == [] && c.text.Some? && Occurs(Strip(c.text.value), "Roles")
    ensures ProcessResult(e, true) == Fail(TypeError)
    ensures ProcessResult(e, false).Ok?
  {
    var c := e.children[i];
    RawFieldsEmpty(c, 0, true);
    assert Occurs(Strip(c.text.value), "Roles");
    assert Strip(c.text.value) != [] by {
      var k :| 0 <= k <= |Strip(c.text.value)| && OccursAt(Strip(c.text.value), "Roles", k);
    }
    assert BuiltValue(c, true) == Str(Strip(c.text.value));
    assert RaisesIn(c);
    RaisesBeforeSpec(e, |e.children|);
  }

  /**
   * A dict whose `Roles` entry is a string holding `Role`, or a list holding
   * the string `"Role"`, makes the test index that entry by `"Role"` and
   * raise; a dict-shaped `Roles` entry never raises.
   */
  lemma RolesEntryRaises(fields: seq<(string, Value)>, roles: Value)
    requires "Roles" in OrderedDict.Keys(fields) && OrderedDict.Get(fields, "Roles") == roles
    ensures roles.Str? && Occurs(roles.s, "Role") ==> RolesTestRaises(Map(fields))
    ensures roles.List? && Str("Role") in roles.items ==> RolesTestRaises(Map(fields))
    ensures roles.Map? ==> !RolesTestRaises(Map(fields))
  {
  }

  // ---------------------------------------------------------------------
  // Shape rules

  /** The local names of the tags of `cs`, in order. */
  function LocalTags(cs: seq<Element>): (r: seq<string>)
    ensures |r| == |cs|
  {
    if cs == [] then [] else LocalTags(cs[..|cs| - 1]) + [LocalName(cs[|cs| - 1].tag)]
  }

  /** The dict's keys, in order: the attribute names, then each new local child tag. */
  lemma {:induction false} RawFieldsKeys(e: Element, n: nat, w: bool)
    requires n <= |e.children|
    ensures OrderedDict.Keys(RawFields(e, n, w))
            == OrderedDict.Dedup(OrderedDict.Keys(e.attrs) + LocalTags(e.children[..n]))
    ensures OrderedDict.Distinct(RawFields(e, n, w))
  {
    if n == 0 {
      assert OrderedDict.Keys(AttrFields(e.attrs)) == OrderedDict.Keys(e.attrs);
      assert LocalTags(e.children[..0]) == [];
      assert OrderedDict.Keys(e.attrs) + [] == OrderedDict.Keys(e.attrs);
      OrderedDict.KeysDistinct(e.attrs);
    } else {
      RawFieldsKeys(e, n - 1, w);
      var s := OrderedDict.Keys(e.attrs) + LocalTags(e.children[..n - 1]);
      var tag := LocalName(e.children[n - 1].tag);
      assert e.children[..n][..n - 1] == e.children[..n - 1];
      assert LocalTags(e.children[..n]) == LocalTags(e.children[..n - 1]) + [tag];
      assert OrderedDict.Keys(e.attrs) + LocalTags(e.children[..n]) == s + [tag];
      assert (s + [tag])[..|s + [tag]| - 1] == s;
      var d := RawFields(e, n - 1, w);
      AddChildKeys(d, tag, ElementValue(e.children[n - 1], w));
      assert OrderedDict.Dedup(s + [tag])
             == if tag in OrderedDict.Dedup(s) then OrderedDict.Dedup(s) else OrderedDict.Dedup(s) + [tag];
    }
  }

  /** Whenever the dict is not empty, the element has an attribute or a child. */
  lemma {:induction false} RawFieldsEmpty(e: Element, n: nat, w: bool)
    requires n <= |e.children|
    ensures |RawFields(e, n, w)| == 0 <==> e.attrs == [] && n == 0
  {
    if n > 0 {
      var c := e.children[n - 1];
      AddChildKeys(RawFields(e, n - 1, w), LocalName(c.tag), ElementValue(c, w));
      assert |RawFields(e, n, w)| > 0;
    } else {
      assert |RawFields(e, n, w)| == |e.attrs|;
    }
  }

  /**
   * The text-scalar rule: the value is a string exactly when the element has
   * no attributes, no children and text that is not blank, and that string is
   * the stripped text.
   */
  lemma TextScalar(e: Element, w: bool)
    ensures ElementValue(e, w).Str? <==>
              e.attrs == [] && e.children == [] && e.text.Some? && Strip(e.text.value) != []
    ensures ElementValue(e, w).Str? ==> ElementValue(e, w).s == Strip(e.text.value)
  {
    RawFieldsEmpty(e, |e.children|, w);
  }

  /** An element that is empty apart from whitespace yields an empty map. */
  lemma BlankElement(e: Element, w: bool)
    requires e.attrs == [] && e.children == []
    requires e.text.None? || AllSpace(e.text.value)
    ensures ElementValue(e, w) == Map([])
  {
    if e.text.Some? {
      StripEmpty(e.text.value);
    }
    assert BuiltValue(e, w) == Map([]);
  }

  /**
   * Otherwise the value is a map whose keys are the attribute names, then the
   * local child tags in order of first appearance, each once.
   */
  lemma MapKeys(e: Element, w: bool)
    requires !(e.attrs == [] && e.children == [] && e.text.Some? && Strip(e.text.value) != [])
    ensures ElementValue(e, w).Map?
    ensures OrderedDict.Keys(ElementValue(e, w).fields)
            == OrderedDict.Dedup(OrderedDict.Keys(e.attrs) + LocalTags(e.children))
  {
    TextScalar(e, w);
    RawFieldsKeys(e, |e.children|, w);
    assert e.children[..|e.children|] == e.children;
  }

  // ---------------------------------------------------------------------
  // Multiplicity

  /** The values of the children of `cs` whose local tag is `k`, in document order. */
  function ChildValues(cs: seq<Element>, k: string, w: bool): (r: seq<Value>)
    decreases |cs|
  {
    if cs == [] then []
    else
      var last := cs[|cs| - 1];
      ChildValues(cs[..|cs| - 1], k, w) + (if LocalName(last.tag) == k then [ElementValue(last, w)] else [])
  }

  /**
   * Everything stored under `k` once `n` children are processed: the attribute
   * `k` (if any), then every child with local tag `k`, in document order.
   */
  function Occurrences(e: Element, n: nat, k: string, w: bool): (r: seq<Value>)
    requires n <= |e.children|
  {
    (if k in OrderedDict.Keys(e.attrs) then [Str(OrderedDict.Get(e.attrs, k))] else [])
    + ChildValues(e.children[..n], k, w)
  }

  /** No occurrence is a list: each is an attribute string or a converted child. */
  lemma {:induction false} ChildValuesShape(cs: seq<Element>, k: string, w: bool)
    ensures forall i :: 0 <= i < |ChildValues(cs, k, w)| ==> !ChildValues(cs, k, w)[i].List?
    decreases |cs|
  {
    if cs != [] {
      ChildValuesShape(cs[..|cs| - 1], k, w);
      var v := ElementValue(cs[|cs| - 1], w);
      assert !v.List?;
    }
  }

  /** A single occurrence is stored as it is; two or more as a list of all of them. */
  function Collapse(occ: seq<Value>): Value
    requires |occ| >= 1
  {
    if |occ| == 1 then occ[0] else List(occ)
  }

  /** Each attribute is stored as its string value. */
  lemma AttrEntries(attrs: Attrs, k: string)
    ensures k in OrderedDict.Keys(AttrFields(attrs)) <==> k in OrderedDict.Keys(attrs)
    ensures k in OrderedDict.Keys(attrs) ==>
              OrderedDict.Get(AttrFields(attrs), k) == Str(OrderedDict.Get(attrs, k))
  {
    var d := AttrFields(attrs);
    assert OrderedDict.Keys(d) == OrderedDict.Keys(attrs);
    if k in OrderedDict.Keys(attrs) {
      var i := OrderedDict.IndexOf(attrs, k);
      assert OrderedDict.IndexOf(d, k) == i by {
        var j := OrderedDict.IndexOf(d, k);
        assert !(j < i) && !(i < j);
      }
    }
  }

  /**
   * Storing one more value keeps the entry under `k` equal to the collapsed
   * occurrences, given that no occurrence is itself a list.
   */
  lemma StoreChildEntry(d: seq<(string, Value)>, occ: seq<Value>, tag: string, cv: Value, k: string)
    requires k in OrderedDict.Keys(d) <==> |occ| >= 1
    requires k in OrderedDict.Keys(d) ==> OrderedDict.Get(d, k) == Collapse(occ)
    requires forall i :: 0 <= i < |occ| ==> !occ[i].List?
    requires !cv.List?
    ensures var d' := AddChild(d, tag, cv);
            var occ' := if tag == k then occ + [cv] else occ;
            (k in OrderedDict.Keys(d') <==> |occ'| >= 1)
            && (k in OrderedDict.Keys(d') ==> OrderedDict.Get(d', k) == Collapse(occ'))
  {
    AddChildGet(d, tag, cv, k);
    if tag == k && k in OrderedDict.Keys(d) {
      var prev := OrderedDict.Get(d, k);
      if |occ| == 1 {
        assert [prev] + [cv] == occ + [cv];
      }
    }
  }

  /** The occurrences grow by the next child exactly when its local tag is `k`. */
  lemma OccurrencesStep(e: Element, n: nat, k: string, w: bool)
    requires 0 < n <= |e.children|
    ensures var c := e.children[n - 1];
            Occurrences(e, n, k, w)
            == Occurrences(e, n - 1, k, w) + (if LocalName(c.tag) == k then [ElementValue(c, w)] else [])
  {
    var cs := e.children[..n];
    assert cs[..|cs| - 1] == e.children[..n - 1];
  }

  /** No occurrence is a list. */
  lemma OccurrencesShape(e: Element, n: nat, k: string, w: bool)
    requires n <= |e.children|
    ensures forall i :: 0 <= i < |Occurrences(e, n, k, w)| ==> !Occurrences(e, n, k, w)[i].List?
  {
    ChildValuesShape(e.children[..n], k, w);
  }

  /** The property `RawFieldsEntries` states, for one prefix of the children. */
  predicate EntriesMatch(e: Element, n: nat, k: string, w: bool)
    requires n <= |e.children|
  {
    (k in OrderedDict.Keys(RawFields(e, n, w)) <==> |Occurrences(e, n, k, w)| >= 1)
    && (k in OrderedDict.Keys(RawFields(e, n, w)) ==>
          OrderedDict.Get(RawFields(e, n, w), k) == Collapse(Occurrences(e, n, k, w)))
  }

  lemma EntriesBase(e: Element, k: string, w: bool)
    ensures EntriesMatch(e, 0, k, w)
  {
    assert e.children[..0] == [];
    AttrEntries(e.attrs, k);
  }

  lemma EntriesStep(e: Element, n: nat, k: string, w: bool)
    requires 0 < n <= |e.children|
    requires EntriesMatch(e, n - 1, k, w)
    ensures EntriesMatch(e, n, k, w)
  {
    OccurrencesStep(e, n, k, w);
    OccurrencesShape(e, n - 1, k, w);
    var c := e.children[n - 1];
    StoreChildEntry(RawFields(e, n - 1, w), Occurrences(e, n - 1, k, w), LocalName(c.tag), ElementValue(c, w), k);
  }

  /**
   * Promotion drops nothing: a key is present exactly when something was
   * stored under it, and its entry is the single occurrence or the list of all
   * occurrences in order.
   */
  lemma {:induction false} RawFieldsEntries(e: Element, n: nat, k: string, w: bool)
    requires n <= |e.children|
    ensures k in OrderedDict.Keys(RawFields(e, n, w)) <==> |Occurrences(e, n, k, w)| >= 1
    ensures k in OrderedDict.Keys(RawFields(e, n, w)) ==>
              OrderedDict.Get(RawFields(e, n, w), k) == Collapse(Occurrences(e, n, k, w))
  {
    if n == 0 {
      EntriesBase(e, k, w);
    } else {
      RawFieldsEntries(e, n - 1, k, w);
      EntriesStep(e, n, k, w);
    }
    assert EntriesMatch(e, n, k, w);
  }

  /**
   * In the snapshots without the `Roles` fix, each key of the value holds
   * exactly the collapsed occurrences of that name.
   */
  lemma Promotion(e: Element, k: string)
    requires ElementValue(e, false).Map?
    ensures k in OrderedDict.Keys(ElementValue(e, false).fields) <==>
              |Occurrences(e, |e.children|, k, false)| >= 1
    ensures k in OrderedDict.Keys(ElementValue(e, false).fields) ==>
              OrderedDict.Get(ElementValue(e, false).fields, k) == Collapse(Occurrences(e, |e.children|, k, false))
  {
    RawFieldsEntries(e, |e.children|, k, false);
  }

  /**
   * With the `Roles` fix, every key other than `Roles` holds the same
   * collapsed occurrences, and a `Roles` map never holds a single `Role` map.
   */
  lemma PromotionWithRoles(e: Element, k: string)
    requires ElementValue(e, true).Map? && k != "Roles"
    ensures k in OrderedDict.Keys(ElementValue(e, true).fields) <==>
              |Occurrences(e, |e.children|, k, true)| >= 1
    ensures k in OrderedDict.Keys(ElementValue(e, true).fields) ==>
              OrderedDict.Get(ElementValue(e, true).fields, k) == Collapse(Occurrences(e, |e.children|, k, true))
    ensures !HasSingleRole(ElementValue(e, true))
  {
    RawFieldsEntries(e, |e.children|, k, true);
    var data := RawFields(e, |e.children|, true);
    NormaliseRolesSpec(Map(data));
  }

  // ---------------------------------------------------------------------
  // A single role, with and without the fix

  /** `<Role id="RO1"/>` */
  function SingleRole(): Element
  {
    Element("Role", [("id", "RO1")], [], None)
  }

  /** `<Roles><Role id="RO1"/></Roles>` */
  function SingleRoleList(): Element
  {
    Element("Roles", [], [SingleRole()], None)
  }

  /** `<Organisation><Roles><Role id="RO1"/></Roles></Organisation>` */
  function SingleRoleOrganisation(): Element
  {
    Element("Organisation", [], [SingleRoleList()], None)
  }

  lemma SingleRoleValue(w: bool)
    ensures ElementValue(SingleRole(), w) == Map([("id", Str("RO1"))])
  {
    var roleMap := Map([("id", Str("RO1"))]);
    assert RawFields(SingleRole(), 0, w) == [("id", Str("RO1"))];
    assert OrderedDict.Keys([("id", Str("RO1"))]) == ["id"];
    assert !HasSingleRole(roleMap);
  }

  lemma SingleRoleListValue(w: bool)
    ensures ElementValue(SingleRoleList(), w) == Map([("Role", Map([("id", Str("RO1"))]))])
  {
    var roleMap := Map([("id", Str("RO1"))]);
    var rolesMap := Map([("Role", roleMap)]);
    SingleRoleValue(w);
    LocalNameOfPlainAndQualified("", "Role");
    assert RawFields(SingleRoleList(), 0, w) == [];
    assert RawFields(SingleRoleList(), 1, w) == AddChild([], "Role", roleMap);
    assert OrderedDict.Put([], "Role", roleMap) == [("Role", roleMap)];
    assert OrderedDict.Keys([("Role", roleMap)]) == ["Role"];
    assert !HasSingleRole(rolesMap);
  }

  lemma SingleRoleOrganisationFields(w: bool)
    ensures RawFields(SingleRoleOrganisation(), 1, w) == [("Roles", Map([("Role", Map([("id", Str("RO1"))]))]))]
  {
    var rolesMap := Map([("Role", Map([("id", Str("RO1"))]))]);
    SingleRoleListValue(w);
    LocalNameOfPlainAndQualified("", "Roles");
    assert RawFields(SingleRoleOrganisation(), 0, w) == [];
    assert RawFields(SingleRoleOrganisation(), 1, w) == AddChild([], "Roles", rolesMap);
    assert OrderedDict.Put([], "Roles", rolesMap) == [("Roles", rolesMap)];
  }

  lemma WrapSingleRole()
    ensures var roleMap := Map([("id", Str("RO1"))]);
            NormaliseRoles(Map([("Roles", Map([("Role", roleMap)]))]))
            == Map([("Roles", Map([("Role", List([roleMap]))]))])
  {
    var roleMap := Map([("id", Str("RO1"))]);
    var roleFields := [("Role", roleMap)];
    var fields := [("Roles", Map(roleFields))];
    assert OrderedDict.Keys(fields) == ["Roles"];
    assert OrderedDict.Keys(roleFields) == ["Role"];
    assert OrderedDict.IndexOf(fields, "Roles") == 0;
    assert OrderedDict.IndexOf(roleFields, "Role") == 0;
    assert HasSingleRole(Map(fields));
    var wrapped := [("Role", List([roleMap]))];
    assert OrderedDict.Put(roleFields, "Role", List([roleMap])) == wrapped;
    assert OrderedDict.Put(fields, "Roles", Map(wrapped)) == [("Roles", Map(wrapped))];
  }

  /**
   * One `Role` child stays a map in the older snapshots and becomes a
   * one-element list in the newer ones.
   */
  lemma SingleRoleShapes()
    ensures var roleMap := Map([("id", Str("RO1"))]);
            ElementValue(SingleRoleOrganisation(), false) == Map([("Roles", Map([("Role", roleMap)]))])
            && ElementValue(SingleRoleOrganisation(), true) == Map([("Roles", Map([("Role", List([roleMap]))]))])
  {
    SingleRoleOrganisationFields(false);
    SingleRoleOrganisationFields(true);
    WrapSingleRole();
  }
}
