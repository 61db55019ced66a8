/** The string handling of the analyzer: provider references, module labels and the resource
    keys of the 0.11 layout. */
module Names {
  import opened Collections

  const NUL: char := 0 as char

  predicate HasPrefix(s: string, p: string) {
    p <= s
  }

  function TrimPrefix(s: string, p: string): string {
    if p <= s then s[|p|..] else s
  }

  /** unicode.IsSpace. */
  predicate IsSpace(c: char) {
    || '\U{9}' <= c <= '\U{D}' || c == ' ' || c == '\U{85}' || c == '\U{A0}' || c == '\U{1680}'
    || '\U{2000}' <= c <= '\U{200A}' || c == '\U{2028}' || c == '\U{2029}' || c == '\U{202F}'
    || c == '\U{205F}' || c == '\U{3000}'
  }

  predicate Blank(s: string) {
    forall i :: 0 <= i < |s| ==> IsSpace(s[i])
  }

  /** strings.TrimSpace. */
  function TrimSpace(s: string): (t: string)
    ensures t == "" <==> Blank(s)
    ensures t != "" ==> !IsSpace(t[0]) && !IsSpace(t[|t| - 1])
    ensures s == "" || (!IsSpace(s[0]) && !IsSpace(s[|s| - 1])) ==> t == s
  {
    if s != [] && IsSpace(s[0]) then
      assert forall i :: 1 <= i < |s| ==> s[i] == s[1..][i - 1];
      TrimSpace(s[1..])
    else if s != [] && IsSpace(s[|s| - 1]) then TrimSpace(s[..|s| - 1])
    else s
  }

  /** What is cut off is blank. */
  lemma {:induction false} TrimSpaceCuts(s: string)
    ensures exists a, b :: Cuts(s, a, TrimSpace(s), b)
  {
    if s != [] && IsSpace(s[0]) {
      TrimSpaceCuts(s[1..]);
      var a, b :| Cuts(s[1..], a, TrimSpace(s[1..]), b);
      CutMore(s, a, TrimSpace(s), b);
    } else if s != [] && IsSpace(s[|s| - 1]) {
      TrimSpaceCuts(s[..|s| - 1]);
      var a, b :| Cuts(s[..|s| - 1], a, TrimSpace(s[..|s| - 1]), b);
      CutMore(s, a, TrimSpace(s), b);
    } else {
      assert Cuts(s, [], TrimSpace(s), []);
    }
  }

  ghost predicate Cuts(s: string, a: string, t: string, b: string) {
    Blank(a) && Blank(b) && s == a + t + b
  }

  lemma CutMore(s: string, a: string, t: string, b: string)
    requires s != []
    ensures IsSpace(s[0]) && Cuts(s[1..], a, t, b) ==> Cuts(s, [s[0]] + a, t, b)
    ensures IsSpace(s[|s| - 1]) && Cuts(s[..|s| - 1], a, t, b) ==> Cuts(s, a, t, b + [s[|s| - 1]])
  {
    if Cuts(s[1..], a, t, b) {
      assert s == [s[0]] + s[1..] == [s[0]] + a + t + b;
    }
    if Cuts(s[..|s| - 1], a, t, b) {
      assert s == s[..|s| - 1] + [s[|s| - 1]] == a + t + (b + [s[|s| - 1]]);
    }
  }

  /** Go's len: the bytes of the UTF-8 form. */
  function ByteLength(s: string): (n: nat)
    ensures |s| <= n <= 4 * |s|
  {
    if s == [] then 0
    else (if s[0] < '\U{80}' then 1 else if s[0] < '\U{800}' then 2 else if s[0] < '\U{10000}' then 3 else 4) + ByteLength(s[1..])
  }

  /** strings.Index: the first occurrence, or -1. */
  function Index(s: string, sub: string): (i: int)
    ensures i == -1 || (0 <= i <= |s| - |sub| && sub <= s[i..])
    ensures forall j :: 0 <= j <= |s| && (i == -1 || j < i) ==> !(sub <= s[j..])
  {
    if sub <= s then 0
    else if s == [] then -1
    else
      var i := Index(s[1..], sub);
      assert forall j :: 1 <= j <= |s| ==> s[j..] == s[1..][j - 1..];
      if i < 0 then -1 else i + 1
  }

  function Contains(s: string, sub: string): bool {
    Index(s, sub) >= 0
  }

  lemma ContainsMeans(s: string, sub: string)
    ensures Contains(s, sub) <==> exists i :: 0 <= i <= |s| && sub <= s[i..]
  {
  }

  lemma {:induction false} BytesAdd(s: string, t: string)
    ensures ByteLength(s + t) == ByteLength(s) + ByteLength(t)
  {
    if s == [] {
      assert s + t == t;
    } else {
      assert (s + t)[1..] == s[1..] + t;
      BytesAdd(s[1..], t);
    }
  }

  /** The bytes of a string are those of its characters, as UTF-8 encodes them. */
  lemma BytesOf(s: string, c: char)
    ensures ByteLength(s + [c]) - ByteLength(s) ==
            if c as int <= 127 then 1 else if c as int <= 2047 then 2 else if c as int <= 65535 then 3 else 4
  {
    BytesAdd(s, [c]);
    assert [c][1..] == [];
  }

  /** strings.Join on one character. */
  function Join(sep: char, parts: seq<string>): string {
    if parts == [] then "" else if |parts| == 1 then parts[0] else parts[0] + [sep] + Join(sep, parts[1..])
  }

  /** A part that a joined text gives back. */
  predicate PlainPart(sep: char, part: string) {
    part != "" && sep !in part
  }

  lemma {:induction false} JoinInjective(sep: char, a: seq<string>, b: seq<string>)
    requires (forall i :: 0 <= i < |a| ==> PlainPart(sep, a[i])) && (forall i :: 0 <= i < |b| ==> PlainPart(sep, b[i]))
    requires Join(sep, a) == Join(sep, b)
    ensures a == b
  {
    JoinShape(sep, a);
    JoinShape(sep, b);
    if |a| >= 2 {
      SplitAtFirst(sep, a[0], Join(sep, a[1..]), b[0], Join(sep, b[1..]));
      JoinInjective(sep, a[1..], b[1..]);
      assert a == [a[0]] + a[1..] && b == [b[0]] + b[1..];
    }
  }

  lemma JoinShape(sep: char, parts: seq<string>)
    requires forall i :: 0 <= i < |parts| ==> PlainPart(sep, parts[i])
    ensures Join(sep, parts) == "" <==> parts == []
    ensures sep in Join(sep, parts) <==> |parts| >= 2
  {
  }

  /** strings.Split on one character. */
  function Split(s: string, c: char): (parts: seq<string>)
    ensures parts != []
  {
    if s == [] then [[]]
    else
      var rest := Split(s[1..], c);
      if s[0] == c then [[]] + rest else [[s[0]] + rest[0]] + rest[1..]
  }

  function ModuleLabel(path: string): string {
    if path == "" then "root" else path
  }

  /** What stands between [" and the next quote, if both are there. */
  function Quoted(provider: string): string {
    var i := Index(provider, "[\"");
    var j := if i >= 0 then Index(provider[i + 2..], "\"") else -1;
    if j >= 0 then provider[i + 2..i + 2 + j] else provider
  }

  function ShortProvider(ref: string, kind: string): string {
    var parts := Split(ref, '/');
    if |parts| >= 3 then parts[|parts| - 2] + "/" + parts[|parts| - 1]
    else if ref != "" then
      if '/' !in ref && Index(ref, ".") >= 0 then ref[..Index(ref, ".")] else ref
    else LeadingSegment(kind)
  }

  function NormalizeProvider(provider: string, kind: string): string {
    if provider != "" then ShortProvider(TrimPrefix(Quoted(provider), "provider."), kind) else LeadingSegment(kind)
  }

  function LeadingSegment(kind: string): string {
    var i := Index(kind, "_");
    if i > 0 then kind[..i] else "unknown"
  }

  function LegacyModuleField(path: seq<string>): string {
    if |path| <= 1 then "" else JoinModules(path[1..])
  }

  function JoinModules(names: seq<string>): string
    requires names != []
  {
    if |names| == 1 then "module." + names[0] else "module." + names[0] + "." + JoinModules(names[1..])
  }

  /** Below the root, each level of the path adds its name. */
  lemma {:induction false} ModuleLevels(path: seq<string>, name: string)
    ensures LegacyModuleField(path + [name]) ==
            if path == [] then "" else if |path| == 1 then "module." + name else LegacyModuleField(path) + ".module." + name
    decreases |path|
  {
    if |path| > 1 {
      assert (path + [name])[1..] == path[1..] + [name];
      LevelsBelow(path[1..], name);
    }
  }

  lemma {:induction false} LevelsBelow(names: seq<string>, name: string)
    requires names != []
    ensures JoinModules(names + [name]) == JoinModules(names) + ".module." + name
  {
    var all := names + [name];
    if |names| == 1 {
      assert all[1..] == [name];
      assert JoinModules(all) == "module." + names[0] + "." + ("module." + name);
    } else {
      assert all[1..] == names[1..] + [name];
      LevelsBelow(names[1..], name);
      assert JoinModules(all) == "module." + names[0] + "." + (JoinModules(names[1..]) + ".module." + name);
    }
  }

  function LegacyMode(key: string): string {
    if HasPrefix(key, "data.") then "data" else "managed"
  }

  function LegacyTypeFromKey(key: string): string {
    var k := TrimPrefix(key, "data.");
    var i := Index(k, ".");
    if i > 0 then k[..i] else k
  }

  function LegacyResourceName(key: string, kind: string): string {
    TrimPrefix(TrimPrefix(key, "data."), kind + ".")
  }

  // ---------------------------------------------------------------- what they recover

  /** A separator that the first parts do not contain splits a string one way. */
  lemma SplitAtFirst(c: char, a: string, b: string, x: string, y: string)
    requires c !in a && c !in x && a + [c] + b == x + [c] + y
    ensures a == x && b == y
  {
    var s, t := a + [c] + b, x + [c] + y;
    assert s[|a|] == c && t[|x|] == c;
    assert forall i :: 0 <= i < |a| ==> s[i] == a[i];
    assert forall i :: 0 <= i < |x| ==> t[i] == x[i];
    assert |a| == |x|;
    assert a == s[..|a|] && x == t[..|x|] && b == s[|a| + 1..] && y == t[|x| + 1..];
  }

  lemma PrefixBeforeDot(kind: string, name: string)
    requires '.' !in kind
    ensures "data." <= kind + "." + name <==> kind == "data"
  {
    var key := kind + "." + name;
    assert key[|kind|] == '.' && key[..|kind|] == kind;
    assert forall i :: 0 <= i < |kind| ==> key[i] == kind[i] && kind[i] != '.';
    if "data." <= key {
      assert key[..5] == ['d', 'a', 't', 'a', '.'];
      assert key[0] == 'd' && key[1] == 'a' && key[2] == 't' && key[3] == 'a' && key[4] == '.';
      assert |kind| == 4;
      assert kind == key[..4];
    }
  }

  /** Parsing a key of the form [data.]type.name gives mode, type and name back, except for a
      managed resource whose type is "data". */
  lemma KeyParsing(data: bool, kind: string, name: string)
    requires kind != "" && '.' !in kind
    ensures var key := (if data then "data." else "") + kind + "." + name;
            (LegacyMode(key) == (if data then "data" else "managed")
             && LegacyTypeFromKey(key) == kind && LegacyResourceName(key, kind) == name)
            <==> (data || kind != "data")
  {
    var body := kind + "." + name;
    var key := (if data then "data." else "") + body;
    assert key == (if data then "data." else "") + kind + "." + name;
    IndexOfMarker(kind, ".", name);
    assert kind + ['.'] + name == body;
    assert kind + "." <= body && body[|kind| + 1..] == name;
    if data {
      assert key[5..] == body;
    } else {
      assert key == body;
      PrefixBeforeDot(kind, name);
    }
  }

  /** What is left of such a key without its prefix. */
  lemma KeyBody(data: bool, kind: string, name: string)
    requires '.' !in kind && (data || kind != "data")
    ensures var key := (if data then "data." else "") + kind + "." + name;
            TrimPrefix(key, "data.") == kind + "." + name && LegacyMode(key) == (if data then "data" else "managed")
  {
    var body := kind + "." + name;
    var key := (if data then "data." else "") + body;
    assert key == (if data then "data." else "") + kind + "." + name;
    if data {
      assert key[5..] == body;
    } else {
      assert key == body;
      PrefixBeforeDot(kind, name);
    }
  }

  // ---------------------------------------------------------------- provider references

  /** A marker is found where its first character first occurs, if the rest of it follows. */
  lemma IndexOfMarker(s: string, mark: string, t: string)
    requires mark != "" && mark[0] !in s
    ensures Index(s + mark + t, mark) == |s|
  {
    var u := s + mark + t;
    assert u[|s|..] == mark + t;
    forall j | 0 <= j < |s| ensures !(mark <= u[j..]) {
      assert u[j..][0] == s[j];
    }
  }

  lemma {:induction false} SplitFirst(a: string, c: char, b: string)
    requires c !in a
    ensures Split(a, c) == [a] && Split(a + [c] + b, c) == [a] + Split(b, c)
  {
    var u := a + [c] + b;
    if a == [] {
      assert u[1..] == b;
    } else {
      SplitFirst(a[1..], c, b);
      assert u[0] == a[0] && u[1..] == a[1..] + [c] + b;
      assert [a[0]] + a[1..] == a;
    }
  }

  /** The prefix "provider." of a path can only come off its first part. */
  lemma TrimFirstPart(host: string, rest: string)
    requires '/' !in host
    ensures exists h :: '/' !in h && TrimPrefix(host + ['/'] + rest, "provider.") == h + ['/'] + rest
  {
    var u := host + ['/'] + rest;
    assert |host| < 9 <= |u| ==> u[..9][|host|] == '/' && '/' in u[..9];
    if "provider." <= u {
      assert u[..9] == "provider.";
      assert u[9..] == host[9..] + ['/'] + rest;
    } else {
      assert TrimPrefix(u, "provider.") == host + ['/'] + rest;
    }
  }

  lemma QuotedPath(path: string, suffix: string)
    requires '"' !in path
    ensures Quoted("provider" + "[\"" + (path + "\"" + suffix)) == path
  {
    var tail := path + "\"" + suffix;
    var provider := "provider" + "[\"" + tail;
    IndexOfMarker("provider", "[\"", tail);
    assert provider[10..] == tail;
    IndexOfMarker(path, "\"", suffix);
    assert tail[..|path|] == path;
  }

  lemma ShortPath(h: string, ns: string, name: string, kind: string)
    requires '/' !in h && '/' !in ns && '/' !in name
    ensures ShortProvider(h + ['/'] + (ns + ['/'] + name), kind) == ns + "/" + name
  {
    SplitFirst(h, '/', ns + ['/'] + name);
    SplitFirst(ns, '/', name);
    SplitFirst(name, '/', "");
  }

  /** A registry reference provider["host/namespace/name"], aliased or not, counts under
      namespace/name. */
  lemma RegistryProvider(host: string, ns: string, name: string, suffix: string, kind: string)
    requires '/' !in host && '/' !in ns && '/' !in name && '"' !in host && '"' !in ns && '"' !in name
    ensures var path := host + ['/'] + (ns + ['/'] + name);
            NormalizeProvider("provider" + "[\"" + (path + "\"" + suffix), kind) == ns + "/" + name
  {
    var path := host + ['/'] + (ns + ['/'] + name);
    QuotedPath(path, suffix);
    TrimFirstPart(host, ns + ['/'] + name);
    var h :| '/' !in h && TrimPrefix(path, "provider.") == h + ['/'] + (ns + ['/'] + name);
    ShortPath(h, ns, name, kind);
  }

  /** A reference of the 0.11 layout counts under the provider type, whatever its alias. */
  lemma AliasedProvider(kind: string, alias: string, resource: string)
    requires kind != "" && '.' !in kind && '/' !in kind && '[' !in kind && '/' !in alias && '[' !in alias
    ensures NormalizeProvider("provider." + (kind + ['.'] + alias), resource) == kind
    ensures NormalizeProvider("provider." + kind, resource) == kind
  {
    var long := kind + ['.'] + alias;
    UnquotedPath(long);
    UnquotedPath(kind);
    ShortAlias(kind, alias, resource);
  }

  lemma UnquotedPath(ref: string)
    requires '[' !in ref
    ensures TrimPrefix(Quoted("provider." + ref), "provider.") == ref
  {
    NoMarker("provider." + ref, "[\"");
    assert ("provider." + ref)[9..] == ref;
  }

  lemma ShortAlias(kind: string, alias: string, resource: string)
    requires kind != "" && '.' !in kind && '/' !in kind && '/' !in alias
    ensures ShortProvider(kind + ['.'] + alias, resource) == kind && ShortProvider(kind, resource) == kind
  {
    SplitFirst(kind + ['.'] + alias, '/', "");
    SplitFirst(kind, '/', "");
    IndexOfMarker(kind, ".", alias);
    NoMarker(kind, ".");
  }

  lemma NoMarker(s: string, mark: string)
    requires mark != "" && mark[0] !in s
    ensures Index(s, mark) == -1
  {
    forall j | 0 <= j < |s| ensures !(mark <= s[j..]) {
      assert s[j..][0] == s[j];
    }
  }

  /** Without a reference a resource counts under what stands before the first underscore of its
      type, if anything does. */
  lemma MissingProvider(a: string, b: string, kind: string)
    requires a != "" && '_' !in a
    ensures NormalizeProvider("", a + "_" + b) == a
    ensures '_' !in kind || kind[0] == '_' ==> NormalizeProvider("", kind) == "unknown"
  {
    IndexOfMarker(a, "_", b);
    if '_' !in kind {
      NoMarker(kind, "_");
    }
  }
}
