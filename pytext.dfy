/**
 * The few Python string operations the importer relies on, with Python's own
 * semantics: `str.isspace`, `str.strip`, `tag.split('}')[-1]`, `str.endswith`,
 * `str.replace` and `posixpath.join`.
 */
module PyText {

  /** Python's `str.isspace` for a single character. */
  predicate IsSpace(c: char)
  {
    var n := c as int;
    n == 0x20 || (0x09 <= n <= 0x0D) || (0x1C <= n <= 0x1F) || n == 0x85 || n == 0xA0
    || n == 0x1680 || (0x2000 <= n <= 0x200A) || n == 0x2028 || n == 0x2029
    || n == 0x202F || n == 0x205F || n == 0x3000
  }

  predicate AllSpace(s: string)
  {
    forall i :: 0 <= i < |s| ==> IsSpace(s[i])
  }

  /** `s.lstrip()`. */
  function StripLeading(s: string): (r: string)
    ensures |r| <= |s|
  {
    if s != [] && IsSpace(s[0]) then StripLeading(s[1..]) else s
  }

  /** `s.rstrip()`. */
  function StripTrailing(s: string): (r: string)
    ensures |r| <= |s|
  {
    if s != [] && IsSpace(s[|s| - 1]) then StripTrailing(s[..|s| - 1]) else s
  }

  /** `s.strip()`. */
  function Strip(s: string): string
  {
    StripTrailing(StripLeading(s))
  }

  /** `lstrip` drops the leading whitespace and nothing else. */
  lemma {:induction false} StripLeadingSpec(s: string)
    ensures var r := StripLeading(s);
            |r| <= |s| && r == s[|s| - |r|..]
            && (r == [] || !IsSpace(r[0]))
            && AllSpace(s[..|s| - |r|])
  {
    if s != [] && IsSpace(s[0]) {
      StripLeadingSpec(s[1..]);
      var r := StripLeading(s[1..]);
      assert s[1..][|s| - 1 - |r|..] == s[|s| - |r|..];
      forall i | 0 <= i < |s| - |r| ensures IsSpace(s[i]) {
        if i > 0 {
          assert s[1..][..|s| - 1 - |r|][i - 1] == s[i];
        }
      }
    }
  }

  /** `rstrip` drops the trailing whitespace and nothing else. */
  lemma {:induction false} StripTrailingSpec(s: string)
    ensures var r := StripTrailing(s);
            |r| <= |s| && r == s[..|r|]
            && (r == [] || !IsSpace(r[|r| - 1]))
            && AllSpace(s[|r|..])
  {
    if s != [] && IsSpace(s[|s| - 1]) {
      var p := s[..|s| - 1];
      StripTrailingSpec(p);
      var r := StripTrailing(p);
      assert p[..|r|] == s[..|r|];
      forall i | |r| <= i < |s| ensures IsSpace(s[i]) {
        if i < |s| - 1 {
          assert p[|r|..][i - |r|] == s[i];
        }
      }
    }
  }

  /** `s.strip()` is empty exactly when `s` is all whitespace. */
  lemma StripEmpty(s: string)
    ensures Strip(s) == [] <==> AllSpace(s)
  {
    StripLeadingSpec(s);
    var l := StripLeading(s);
    StripTrailingSpec(l);
    var lead := |s| - |l|;
    if Strip(s) == [] {
      assert l[0..] == l;
      assert l == [];
      forall i | 0 <= i < |s| ensures IsSpace(s[i]) {
        assert s[..lead][i] == s[i];
      }
    } else {
      var r := Strip(s);
      assert !IsSpace(s[lead + |r| - 1]) by {
        assert r[|r| - 1] == l[|r| - 1] == s[lead + |r| - 1];
      }
    }
  }

  /**
   * `s.strip()` is the slice of `s` left once its whitespace margins are cut:
   * what precedes and what follows it is whitespace, and it neither starts
   * nor ends with whitespace.
   */
  lemma StripMargins(s: string)
    ensures var lead := |s| - |StripLeading(s)|;
            lead + |Strip(s)| <= |s| && Strip(s) == s[lead..lead + |Strip(s)|]
            && AllSpace(s[..lead]) && AllSpace(s[lead + |Strip(s)|..])
    ensures Strip(s) != [] ==> !IsSpace(Strip(s)[0]) && !IsSpace(Strip(s)[|Strip(s)| - 1])
  {
    StripLeadingSpec(s);
    var l := StripLeading(s);
    StripTrailingSpec(l);
    var r := StripTrailing(l);
    assert r == Strip(s);
    var lead := |s| - |l|;
    assert l == s[lead..];
    assert r == l[..|r|];
    assert r == s[lead..lead + |r|];
    assert s[lead + |r|..] == l[|r|..];
    assert AllSpace(s[lead + |r|..]);
    if r != [] {
      assert r[0] == l[0];
    }
  }

  /** Stripping twice changes nothing more. */
  lemma StripIdempotent(s: string)
    ensures Strip(Strip(s)) == Strip(s)
  {
    var r := Strip(s);
    StripMargins(s);
    if r != [] {
      assert StripLeading(r) == r;
      assert StripTrailing(r) == r;
    }
  }

  /**
   * `tag.split('}')[-1]`: the text after the last `}`, or the whole tag when
   * it has none (so `{ns}OrgId` becomes `OrgId`).
   */
  function LocalName(tag: string): string
  {
    if tag == [] then []
    else if tag[|tag| - 1] == '}' then []
    else LocalName(tag[..|tag| - 1]) + [tag[|tag| - 1]]
  }

  /** The local name is the part of the tag after its last `}`. */
  lemma {:induction false} LocalNameSpec(tag: string)
    ensures var r := LocalName(tag);
            |r| <= |tag| && r == tag[|tag| - |r|..] && '}' !in r
            && (|r| < |tag| ==> tag[|tag| - |r| - 1] == '}')
  {
    if tag != [] && tag[|tag| - 1] != '}' {
      var p := tag[..|tag| - 1];
      var last := tag[|tag| - 1];
      LocalNameSpec(p);
      var q := LocalName(p);
      var r := q + [last];
      assert LocalName(tag) == r;
      assert tag == p + [last];
      assert tag[|tag| - |r|..] == p[|p| - |q|..] + [last];
      assert |r| < |tag| ==> tag[|tag| - |r| - 1] == p[|p| - |q| - 1];
    }
  }

  /** A tag without a namespace is left as it is, and a namespace prefix is removed whole. */
  lemma LocalNameOfPlainAndQualified(ns: string, name: string)
    requires '}' !in ns && '}' !in name
    ensures LocalName(name) == name
    ensures LocalName("{" + ns + "}" + name) == name
  {
    var q := "{" + ns + "}" + name;
    LocalNameSpec(name);
    LocalNameSpec(q);
    assert q[|q| - |name| - 1] == '}';
    assert q[|q| - |name|..] == name;
  }

  /** `s.endswith(suffix)`. */
  predicate EndsWith(s: string, suffix: string)
  {
    |suffix| <= |s| && s[|s| - |suffix|..] == suffix
  }

  /** `pat` occurs in `s` at position `i`. */
  predicate OccursAt(s: string, pat: string, i: int)
  {
    0 <= i && i + |pat| <= |s| && s[i..i + |pat|] == pat
  }

  /** Python's `pat in s`. */
  predicate Occurs(s: string, pat: string)
  {
    exists i :: 0 <= i <= |s| && OccursAt(s, pat, i)
  }

  /** `s.replace("", rep)`: `rep` before, between and after every character. */
  function InsertAround(s: string, rep: string): (r: string)
    ensures |r| == |s| + (|s| + 1) * |rep|
  {
    if s == [] then rep else rep + [s[0]] + InsertAround(s[1..], rep)
  }

  /**
   * `s.replace(pat, rep)`: every occurrence of `pat`, scanning left to right
   * without overlaps, becomes `rep`.
   */
  function Replace(s: string, pat: string, rep: string): string
    decreases |s|
  {
    if pat == [] then InsertAround(s, rep)
    else if |s| < |pat| then s
    else if s[..|pat|] == pat then rep + Replace(s[|pat|..], pat, rep)
    else [s[0]] + Replace(s[1..], pat, rep)
  }

  /** A string in which `pat` does not occur is returned unchanged. */
  lemma {:induction false} ReplaceAbsent(s: string, pat: string, rep: string)
    requires pat != [] && !Occurs(s, pat)
    ensures Replace(s, pat, rep) == s
    decreases |s|
  {
    if |s| >= |pat| {
      assert !OccursAt(s, pat, 0);
      assert s[..|pat|] != pat;
      forall i | OccursAt(s[1..], pat, i) ensures false {
        assert s[1..][i..i + |pat|] == s[i + 1..i + 1 + |pat|];
        assert OccursAt(s, pat, i + 1);
      }
      ReplaceAbsent(s[1..], pat, rep);
    }
  }

  /** A leading occurrence of `pat` is replaced, and the scan goes on after it. */
  lemma ReplaceLeading(pat: string, t: string, rep: string)
    requires pat != []
    ensures Replace(pat + t, pat, rep) == rep + Replace(t, pat, rep)
  {
    assert (pat + t)[..|pat|] == pat;
    assert (pat + t)[|pat|..] == t;
  }

  /** `posixpath.join(a, b)`. */
  function PathJoin(a: string, b: string): string
  {
    if b != [] && b[0] == '/' then b
    else if a == [] || a[|a| - 1] == '/' then a + b
    else a + "/" + b
  }

  /**
   * The joined path ends with `b`; an absolute `b` replaces `a`, and
   * otherwise the result starts with `a`.
   */
  lemma PathJoinSpec(a: string, b: string)
    ensures var r := PathJoin(a, b);
            EndsWith(r, b)
            && (b != [] && b[0] == '/' ==> r == b)
            && ((b == [] || b[0] != '/') ==> |a| <= |r| && r[..|a|] == a)
  {
    var r := PathJoin(a, b);
    if !(b != [] && b[0] == '/') {
      assert r[|r| - |b|..] == b;
    }
  }

  /** A component that is neither empty nor absolute nor ending in `/`. */
  predicate PlainComponent(s: string)
  {
    s != [] && s[0] != '/' && s[|s| - 1] != '/'
  }

  /** Joining plain components puts exactly one `/` between them. */
  lemma PathJoinPlain(a: string, b: string)
    requires PlainComponent(a) && b != [] && b[0] != '/'
    ensures PathJoin(a, b) == a + "/" + b
  {
  }

  /** Joining three plain components onto a plain directory separates each by one `/`. */
  lemma PathJoinPlain3(a: string, b: string, c: string, d: string)
    requires PlainComponent(a) && PlainComponent(b) && PlainComponent(c) && d != [] && d[0] != '/'
    ensures PathJoin(PathJoin(PathJoin(a, b), c), d) == a + "/" + b + "/" + c + "/" + d
  {
    var ab := a + "/" + b;
    assert ab[|ab| - 1] == b[|b| - 1];
    var abc := ab + "/" + c;
    assert abc[|abc| - 1] == c[|c| - 1];
  }

  /** A file three folders down ends with its name, and is `a/b/c/d` when the parts are plain. */
  lemma NestedPath(a: string, b: string, c: string, d: string)
    ensures EndsWith(PathJoin(PathJoin(PathJoin(a, b), c), d), d)
    ensures PlainComponent(a) && PlainComponent(b) && PlainComponent(c) && d != [] && d[0] != '/' ==>
              PathJoin(PathJoin(PathJoin(a, b), c), d) == a + "/" + b + "/" + c + "/" + d
  {
    PathJoinSpec(PathJoin(PathJoin(a, b), c), d);
    if PlainComponent(a) && PlainComponent(b) && PlainComponent(c) && d != [] && d[0] != '/' {
      PathJoinPlain3(a, b, c, d);
    }
  }
}
