/** What a drift request or schedule asks to be planned, and its validation before it is stored
    or dispatched. */
module Targets {
  import opened Names
  import opened Tenancy

  datatype Item = Item(source: Id, key: string, dir: string, params: map<string, string>)

  /** The single source/key/dir at the top level is the older shape of a request. */
  datatype Target = Target(connection: Id, source: Id, key: string, repoRef: string, dir: string, targets: seq<Item>)

  /** targets wins when it is not empty. */
  function Items(t: Target): (items: seq<Item>)
    ensures items != []
  {
    if t.targets != [] then t.targets else [Item(t.source, t.key, t.dir, map[])]
  }

  /** Whether some item plans this state. */
  predicate PlansState(items: seq<Item>, source: Id, key: string) {
    exists i :: 0 <= i < |items| && items[i].source == source && items[i].key == key
  }

  // ---------------------------------------------------------------- variable names

  function Replace(s: string, from: char, to: char): (t: string)
    ensures |t| == |s| && forall i :: 0 <= i < |s| ==> t[i] == if s[i] == from then to else s[i]
  {
    if s == [] then [] else [if s[0] == from then to else s[0]] + Replace(s[1..], from, to)
  }

  function VariableName(dir: string): string {
    "cb_token_" + Replace(dir, '/', '_')
  }

  /** Two directories share a variable exactly when they differ at most in '/' against '_'. */
  lemma VariableNameCollisions(a: string, b: string)
    ensures VariableName(a) == VariableName(b)
            <==> |a| == |b| && forall i :: 0 <= i < |a| ==> a[i] == b[i] || (a[i] in "/_" && b[i] in "/_")
  {
    var p, x, y := "cb_token_", Replace(a, '/', '_'), Replace(b, '/', '_');
    if VariableName(a) == VariableName(b) {
      assert x == VariableName(a)[|p|..] == VariableName(b)[|p|..] == y;
    }
    if |a| == |b| && forall i :: 0 <= i < |a| ==> a[i] == b[i] || (a[i] in "/_" && b[i] in "/_") {
      assert x == y;
    }
  }

  // ---------------------------------------------------------------- validation

  const MAX_TARGETS := 100
  const MAX_KEY_LENGTH := 512
  const MAX_PARAMS := 8

  /** ^[A-Za-z0-9._/\-]*$ */
  predicate PlainChar(c: char) {
    'A' <= c <= 'Z' || 'a' <= c <= 'z' || '0' <= c <= '9' || c == '.' || c == '_' || c == '/' || c == '-'
  }

  predicate Plain(s: string) {
    forall i :: 0 <= i < |s| ==> PlainChar(s[i])
  }

  /** [\x00-\x1f\x7f"'`$;|&<>\\] */
  predicate ForbiddenInKey(c: char) {
    c <= '\U{1F}' || c == '\U{7F}' || c in "\"'`$;|&<>\\"
  }

  predicate ValidItem(it: Item) {
    && Plain(it.dir)
    && ByteLength(it.key) <= MAX_KEY_LENGTH && (forall i :: 0 <= i < |it.key| ==> !ForbiddenInKey(it.key[i]))
    && |it.params| <= MAX_PARAMS && (forall k :: k in it.params ==> Plain(k) && Plain(it.params[k]))
  }

  /** No two items would receive one variable, or report one state. */
  predicate Compatible(a: Item, b: Item) {
    && VariableName(a.dir) != VariableName(b.dir)
    && (a.source == b.source && a.key == b.key ==> a.source == "" && a.key == "")
  }

  predicate ValidTargets(items: seq<Item>) {
    && |items| <= MAX_TARGETS
    && (forall i :: 0 <= i < |items| ==> ValidItem(items[i]))
    && (forall i, j :: 0 <= i < j < |items| ==> Compatible(items[i], items[j]))
  }

  /** The same over the fields of the items alone. */
  lemma ValidTargetsByFields(items: seq<Item>)
    ensures ValidTargets(items) <==>
            (&& |items| <= 100
             && (forall i :: 0 <= i < |items| ==> CleanDir(items[i].dir) && CleanKey(items[i].key)
                                                  && |items[i].params| <= 8
                                                  && forall k :: k in items[i].params ==> CleanDir(k) && CleanDir(items[i].params[k]))
             && (forall i, j :: 0 <= i < j < |items| ==>
                   && (|items[i].dir| == |items[j].dir| ==> DifferBeyondSlash(items[i].dir, items[j].dir))
                   && (items[i].source == items[j].source && items[i].key == items[j].key ==> items[i].source == items[i].key == "")))
  {
    forall i, j | 0 <= i < j < |items|
      ensures VariableName(items[i].dir) != VariableName(items[j].dir)
              <==> (|items[i].dir| == |items[j].dir| ==> DifferBeyondSlash(items[i].dir, items[j].dir))
    {
      VariableNameCollisions(items[i].dir, items[j].dir);
    }
    forall i | 0 <= i < |items|
      ensures ValidItem(items[i]) <==> CleanDir(items[i].dir) && CleanKey(items[i].key) && |items[i].params| <= 8
                                       && forall k :: k in items[i].params ==> CleanDir(k) && CleanDir(items[i].params[k])
    {
      var it := items[i];
      PlainIsClean(it.dir);
      KeyIsClean(it.key);
      forall k ensures Plain(k) <==> CleanDir(k) { PlainIsClean(k); }
    }
  }

  lemma PlainIsClean(s: string)
    ensures Plain(s) <==> CleanDir(s)
  {
    if CleanDir(s) {
      forall i | 0 <= i < |s| ensures PlainChar(s[i]) { assert s[i] in s; }
    }
  }

  lemma KeyIsClean(s: string)
    ensures CleanKey(s) <==> ByteLength(s) <= MAX_KEY_LENGTH && forall i :: 0 <= i < |s| ==> !ForbiddenInKey(s[i])
  {
    if CleanKey(s) {
      forall i | 0 <= i < |s| ensures !ForbiddenInKey(s[i]) { assert s[i] in s; }
    }
  }

  /** ASCII letters, digits, '-', '.', '/' and '_'. */
  ghost predicate CleanDir(s: string) {
    forall c :: c in s ==> 45 <= c as int <= 57 || 65 <= c as int <= 90 || c as int == 95 || 97 <= c as int <= 122
  }

  ghost predicate CleanKey(s: string) {
    ByteLength(s) <= 512 && forall c :: c in s ==> 32 <= c as int != 127 && c !in "\"'`$;|&<>\\"
  }

  ghost predicate DifferBeyondSlash(a: string, b: string)
    requires |a| == |b|
  {
    exists i :: 0 <= i < |a| && a[i] != b[i] && (a[i] !in ['/', '_'] || b[i] !in ['/', '_'])
  }

  predicate TakesName(items: seq<Item>, name: string) {
    exists i :: 0 <= i < |items| && VariableName(items[i].dir) == name
  }

  /** What admits one more item to a valid list. */
  predicate Admits(items: seq<Item>, it: Item) {
    && |items| < MAX_TARGETS && ValidItem(it) && !TakesName(items, VariableName(it.dir))
    && ((it.source == "" && it.key == "") || !PlansState(items, it.source, it.key))
  }

  lemma AdmittedAreCompatible(items: seq<Item>, it: Item)
    ensures !TakesName(items, VariableName(it.dir)) && ((it.source == "" && it.key == "") || !PlansState(items, it.source, it.key))
            <==> forall i :: 0 <= i < |items| ==> Compatible(items[i], it)
  {
  }

  lemma OneMoreValid(items: seq<Item>, it: Item)
    requires ValidTargets(items)
    ensures ValidTargets(items + [it]) <==> Admits(items, it)
  {
    var all, n := items + [it], |items|;
    AdmittedAreCompatible(items, it);
    assert all[n] == it && forall i :: 0 <= i < n ==> all[i] == items[i];
    if ValidTargets(all) {
      assert forall i :: 0 <= i < n ==> Compatible(all[i], all[n]);
      assert ValidItem(all[n]);
    }
  }

  lemma OneMoreSeen(items: seq<Item>, it: Item, source: Id, key: string, name: string)
    ensures PlansState(items + [it], source, key) <==> PlansState(items, source, key) || (it.source == source && it.key == key)
    ensures TakesName(items + [it], name) <==> TakesName(items, name) || VariableName(it.dir) == name
  {
    var all, n := items + [it], |items|;
    assert all[n] == it && forall i :: 0 <= i < n ==> all[i] == items[i];
  }

  lemma ManyInvalid(items: seq<Item>, n: nat)
    requires n <= |items| && !ValidTargets(items[..n])
    ensures !ValidTargets(items)
  {
    assert forall i :: 0 <= i < n ==> items[..n][i] == items[i];
  }

  ghost predicate Tracks(seen: set<(string, string)>, names: map<string, string>, items: seq<Item>) {
    && (forall v :: v in names <==> TakesName(items, v))
    && (forall s, k :: (s, k) in seen <==> (s != "" || k != "") && PlansState(items, s, k))
  }

  lemma TracksMore(seen: set<(string, string)>, names: map<string, string>, items: seq<Item>, it: Item)
    requires Tracks(seen, names, items)
    ensures Tracks(if it.source == "" && it.key == "" then seen else seen + {(it.source, it.key)},
                   names[VariableName(it.dir) := it.dir], items + [it])
  {
    var more := items + [it];
    forall v ensures TakesName(more, v) <==> TakesName(items, v) || VariableName(it.dir) == v {
      OneMoreSeen(items, it, "", "", v);
    }
    forall s, k ensures PlansState(more, s, k) <==> PlansState(items, s, k) || (it.source == s && it.key == k) {
      OneMoreSeen(items, it, s, k, "");
    }
  }

  predicate FreshIn(seen: set<(string, string)>, names: map<string, string>, it: Item) {
    ValidItem(it) && VariableName(it.dir) !in names && ((it.source == "" && it.key == "") || (it.source, it.key) !in seen)
  }

  /** What one more item does to the pass. */
  lemma OneMoreItem(seen: set<(string, string)>, names: map<string, string>, items: seq<Item>, n: nat)
    requires n < |items| <= MAX_TARGETS && ValidTargets(items[..n]) && Tracks(seen, names, items[..n])
    ensures var it := items[n];
            && (FreshIn(seen, names, it) <==> ValidTargets(items[..n + 1]))
            && (!FreshIn(seen, names, it) ==> !ValidTargets(items))
            && Tracks(if it.source == "" && it.key == "" then seen else seen + {(it.source, it.key)},
                      names[VariableName(it.dir) := it.dir], items[..n + 1])
  {
    var it := items[n];
    assert items[..n + 1] == items[..n] + [it];
    OneMoreValid(items[..n], it);
    TracksMore(seen, names, items[..n], it);
    if !FreshIn(seen, names, it) {
      ManyInvalid(items, n + 1);
    }
  }

  /** One pass with a map of names taken and a set of states seen. */
  method ValidateDriftTargets(items: seq<Item>) returns (ok: bool)
    ensures ok <==> ValidTargets(items)
  {
    if |items| > MAX_TARGETS {
      return false;
    }
    var seen: set<(string, string)> := {};
    var names: map<string, string> := map[];
    for n := 0 to |items|
      invariant ValidTargets(items[..n]) && Tracks(seen, names, items[..n])
    {
      var it := items[n];
      OneMoreItem(seen, names, items, n);
      if !ValidItem(it) || VariableName(it.dir) in names || ((it.source != "" || it.key != "") && (it.source, it.key) in seen) {
        return false;
      }
      names := names[VariableName(it.dir) := it.dir];
      if it.source != "" || it.key != "" {
        seen := seen + {(it.source, it.key)};
      }
    }
    assert items[..|items|] == items;
    return true;
  }
}
