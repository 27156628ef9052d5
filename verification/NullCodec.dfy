/** The storage codec that keeps nulls through a provider that drops them. */
module NullCodec {
  import opened Basics

  datatype Json =
    | Null
    | Bool(b: bool)
    | Num(n: real)
    | Str(s: string)
    | Arr(items: seq<Json>)
    | Obj(fields: map<string, Json>)

  type Path = seq<string>

  const NULL_FIELDS: string := "nullFields"
  const PLACEHOLDER: Json := Num(0.0)

  // ---------- Array indices as text ----------

  predicate IsDigit(c: char) { '0' <= c <= '9' }

  /** The canonical decimal numerals: 0, or digits that do not start with 0. */
  predicate IsIndexText(s: string) {
    && s != [] && (forall i :: 0 <= i < |s| ==> IsDigit(s[i]))
    && (|s| > 1 ==> s[0] != '0')
  }

  function IndexValue(s: string): nat
    requires forall i :: 0 <= i < |s| ==> IsDigit(s[i])
  {
    if s == [] then 0
    else
      assert IsDigit(s[|s| - 1]);
      IndexValue(s[..|s| - 1]) * 10 + (s[|s| - 1] as int - '0' as int)
  }

  function Digit(d: nat): char
    requires d < 10
  {
    ('0' as int + d) as char
  }

  function IndexText(n: nat): string {
    if n < 10 then [Digit(n)] else IndexText(n / 10) + [Digit(n % 10)]
  }

  lemma {:induction false} TextOfIndex(n: nat)
    ensures IsIndexText(IndexText(n)) && IndexValue(IndexText(n)) == n
    ensures n > 0 ==> IndexText(n)[0] != '0'
  {
    if n >= 10 {
      TextOfIndex(n / 10);
      var s := IndexText(n);
      assert s[..|s| - 1] == IndexText(n / 10);
    } else {
      assert IndexText(n)[..0] == [];
    }
  }

  lemma {:induction false} IndexOfText(s: string)
    requires IsIndexText(s)
    ensures IndexText(IndexValue(s)) == s
    ensures s[0] != '0' ==> IndexValue(s) > 0
  {
    var n := |s| - 1;
    if n == 0 {
      assert s[..0] == [];
      assert IndexText(IndexValue(s)) == [s[0]];
    } else {
      IndexOfText(s[..n]);
      assert s == s[..n] + [s[n]];
    }
  }

  predicate IsIndex(key: string, length: nat) {
    IsIndexText(key) && IndexValue(key) < length
  }

  lemma SameIndex(a: string, b: string)
    requires IsIndexText(a) && IsIndexText(b) && IndexValue(a) == IndexValue(b)
    ensures a == b
  {
    IndexOfText(a);
    IndexOfText(b);
  }

  // ---------- Values, null paths and stripped values ----------

  function Child(v: Json, key: string): Option<Json> {
    if v.Arr? && IsIndex(key, |v.items|) then Some(v.items[IndexValue(key)])
    else if v.Obj? && key in v.fields then Some(v.fields[key])
    else None
  }

  function Get(v: Json, path: Path): Option<Json> {
    if path == [] then Some(v)
    else
      match Child(v, path[0])
      case None => None
      case Some(child) => Get(child, path[1..])
  }

  predicate IsNullAt(v: Json, path: Path) {
    Get(v, path) == Some(Null)
  }

  ghost predicate NullFree(v: Json) {
    forall p :: !IsNullAt(v, p)
  }

  /** Nulls become the placeholder in arrays and disappear from objects. */
  function Strip(v: Json): Json {
    match v
    case Null => PLACEHOLDER
    case Arr(items) => Arr(seq(|items|, i requires 0 <= i < |items| => Strip(items[i])))
    case Obj(fields) => Obj(map k | k in fields && fields[k] != Null :: Strip(fields[k]))
    case _ => v
  }

  /** What the provider keeps: object fields that are null disappear. */
  function OmitNulls(v: Json): Json {
    match v
    case Arr(items) => Arr(seq(|items|, i requires 0 <= i < |items| => OmitNulls(items[i])))
    case Obj(fields) => Obj(map k | k in fields && fields[k] != Null :: OmitNulls(fields[k]))
    case _ => v
  }

  /** Put a null at a path: in place of an array placeholder, or of an absent or null field. */
  function SetNull(v: Json, path: Path): Option<Json>
    requires path != []
    decreases |path|
  {
    var key := path[0];
    if |path| == 1 then
      if v.Arr? && IsIndex(key, |v.items|) && v.items[IndexValue(key)] in {PLACEHOLDER, Null} then
        Some(Arr(v.items[IndexValue(key) := Null]))
      else if v.Obj? && (key !in v.fields || v.fields[key] == Null) then
        Some(Obj(v.fields[key := Null]))
      else None
    else
      match Child(v, key)
      case None => None
      case Some(child) =>
        match SetNull(child, path[1..])
        case None => None
        case Some(child') => Some(Replace(v, key, child'))
  }

  function Replace(v: Json, key: string, child: Json): Json
    requires Child(v, key).Some?
  {
    if v.Arr? then Arr(v.items[IndexValue(key) := child]) else Obj(v.fields[key := child])
  }

  /** The value at the path survives the provider: it is there, and no null field of an object. */
  ghost predicate Survives(v: Json, path: Path) {
    Get(v, path).Some? && (path != [] && Get(v, path) == Some(Null) ==>
      var parent := Get(v, path[..|path| - 1]);
      parent.Some? && parent.value.Arr?)
  }

  lemma OmittedChild(v: Json, key: string)
    ensures Child(OmitNulls(v), key) ==
      if Child(v, key).None? || (v.Obj? && Child(v, key) == Some(Null)) then None
      else Some(OmitNulls(Child(v, key).value))
  {
  }

  lemma SurvivesBelow(v: Json, path: Path)
    requires path != []
    ensures Survives(v, path) <==>
      && Child(v, path[0]).Some? && !(v.Obj? && Child(v, path[0]) == Some(Null))
      && Survives(Child(v, path[0]).value, path[1..])
  {
    if |path| == 1 {
      assert path[..0] == [] && path[1..] == [];
      assert Get(v, path) == Child(v, path[0]);
    } else {
      var rest := path[1..];
      assert path[..|path| - 1][0] == path[0] && path[..|path| - 1][1..] == rest[..|rest| - 1];
      assert Child(Null, rest[0]).None?;
      assert Get(Null, rest).None?;
      if Child(v, path[0]).Some? {
        var child := Child(v, path[0]).value;
        assert Get(v, path) == Get(child, rest);
        assert Get(v, path[..|path| - 1]) == Get(child, rest[..|rest| - 1]);
      }
    }
  }

  /** The provider drops exactly the null fields of objects, and keeps every array as long as it was. */
  lemma {:induction false} ProviderDropsNullFields(v: Json, path: Path)
    ensures Get(OmitNulls(v), path).Some? <==> Survives(v, path)
    ensures Survives(v, path) ==>
      var kept, was := Get(OmitNulls(v), path).value, Get(v, path).value;
      if was.Arr? then kept.Arr? && |kept.items| == |was.items| else if was.Obj? then kept.Obj? else kept == was
  {
    if path != [] {
      OmittedChild(v, path[0]);
      SurvivesBelow(v, path);
      hide OmitNulls, Survives;
      if Child(v, path[0]).Some? {
        ProviderDropsNullFields(Child(v, path[0]).value, path[1..]);
      }
    }
  }

  lemma ReplacedChild(v: Json, key: string, child: Json, k: string)
    requires Child(v, key).Some?
    ensures Child(Replace(v, key, child), k) == if k == key then Some(child) else Child(v, k)
  {
    if v.Arr? && IsIndexText(k) && IndexValue(k) == IndexValue(key) {
      SameIndex(k, key);
    }
  }

  lemma PutChild(v: Json, path: Path, k: string)
    requires |path| == 1 && SetNull(v, path).Some?
    ensures Child(SetNull(v, path).value, k) == if k == path[0] then Some(Null) else Child(v, k)
    ensures Child(v, path[0]) in {None, Some(PLACEHOLDER), Some(Null)}
  {
    if v.Arr? && IsIndexText(k) && IndexValue(k) == IndexValue(path[0]) {
      SameIndex(k, path[0]);
    }
  }

  lemma NullBelow(v: Json, path: Path)
    requires path != []
    ensures IsNullAt(v, path) <==> Child(v, path[0]).Some? && IsNullAt(Child(v, path[0]).value, path[1..])
    ensures |path| == 1 ==> (IsNullAt(v, path) <==> Child(v, path[0]) == Some(Null))
    ensures |path| > 1 && IsNullAt(v, path) ==> Child(v, path[0]).value != Null
  {
  }

  lemma LeafNulls(path: Path)
    ensures IsNullAt(Null, path) <==> path == []
    ensures !IsNullAt(PLACEHOLDER, path)
  {
  }

  /** Setting one null adds exactly that path to the null paths. */
  lemma {:induction false} SetNullAddsOne(v: Json, path: Path, q: Path)
    requires path != [] && SetNull(v, path).Some?
    ensures IsNullAt(SetNull(v, path).value, q) <==> IsNullAt(v, q) || q == path
    decreases |path|
  {
    var v' := SetNull(v, path).value;
    if q != [] {
      assert q == path <==> q[0] == path[0] && q[1..] == path[1..] by {
        assert q == [q[0]] + q[1..] && path == [path[0]] + path[1..];
      }
      var child := Child(v, path[0]);
      NullBelow(v, q);
      NullBelow(v', q);
      LeafNulls(q[1..]);
      if |path| == 1 {
        PutChild(v, path, q[0]);
      } else {
        ReplacedChild(v, path[0], SetNull(child.value, path[1..]).value, q[0]);
        if q[0] == path[0] {
          SetNullAddsOne(child.value, path[1..], q[1..]);
        }
      }
    }
  }

  /** and leaves the stripped value as it was. */
  lemma {:induction false} SetNullStrips(v: Json, path: Path)
    requires path != [] && SetNull(v, path).Some?
    ensures Strip(SetNull(v, path).value) == Strip(v)
    ensures v.Obj? ==> SetNull(v, path).value.Obj?
    decreases |path|
  {
    if |path| > 1 {
      var child := Child(v, path[0]).value;
      SetNullStrips(child, path[1..]);
    }
  }

  /** A value is determined by its stripped form and its null paths. */
  lemma {:induction false} StripInjective(a: Json, b: Json)
    requires Strip(a) == Strip(b) && forall p :: IsNullAt(a, p) <==> IsNullAt(b, p)
    ensures a == b
    decreases a
  {
    assert IsNullAt(a, []) <==> IsNullAt(b, []);
    match a
    case Arr(items) =>
      forall i | 0 <= i < |items| ensures items[i] == b.items[i] {
        assert Strip(items[i]) == Strip(a).items[i] == Strip(b).items[i] == Strip(b.items[i]);
        TextOfIndex(i);
        SameNullsBelow(a, b, IndexText(i));
        StripInjective(items[i], b.items[i]);
      }
    case Obj(fields) =>
      forall k ensures k in fields <==> k in b.fields {
        SameNullField(a, b, k);
      }
      forall k | k in fields ensures fields[k] == b.fields[k] {
        SameNullField(a, b, k);
        if fields[k] != Null {
          assert Strip(fields[k]) == Strip(a).fields[k] == Strip(b).fields[k] == Strip(b.fields[k]);
          SameNullsBelow(a, b, k);
          StripInjective(fields[k], b.fields[k]);
        }
      }
    case _ =>
  }

  lemma SameNullsBelow(a: Json, b: Json, key: string)
    requires Child(a, key).Some? && Child(b, key).Some? && forall p :: IsNullAt(a, p) <==> IsNullAt(b, p)
    ensures forall p :: IsNullAt(Child(a, key).value, p) <==> IsNullAt(Child(b, key).value, p)
  {
    forall p ensures IsNullAt(Child(a, key).value, p) <==> IsNullAt(Child(b, key).value, p) {
      assert ([key] + p)[1..] == p;
      assert IsNullAt(a, [key] + p) <==> IsNullAt(b, [key] + p);
    }
  }

  lemma SameNullField(a: Json, b: Json, k: string)
    requires a.Obj? && b.Obj? && Strip(a) == Strip(b) && forall p :: IsNullAt(a, p) <==> IsNullAt(b, p)
    ensures k in a.fields <==> k in b.fields
    ensures k in a.fields && k in b.fields ==> (a.fields[k] == Null <==> b.fields[k] == Null)
  {
    assert IsNullAt(a, [k]) <==> IsNullAt(b, [k]);
    NullBelow(a, [k]);
    NullBelow(b, [k]);
    assert k in Strip(a).fields <==> k in Strip(b).fields;
  }

  /** Every null of `v` can be set in what is left of `v`, whichever nulls are set already. */
  lemma {:induction false} SetNullSucceeds(v: Json, part: Json, path: Path)
    requires Strip(part) == Strip(v) && (forall p :: IsNullAt(part, p) ==> IsNullAt(v, p))
    requires path != [] && IsNullAt(v, path)
    ensures SetNull(part, path).Some?
    decreases |path|
  {
    LeafNulls(path);
    assert !IsNullAt(v, []) && (IsNullAt(part, []) ==> IsNullAt(v, []));
    NullBelow(v, path);
    if |path| > 1 {
      PartChild(v, part, path[0]);
      SetNullSucceeds(Child(v, path[0]).value, Child(part, path[0]).value, path[1..]);
    } else {
      assert path == [path[0]];
      LastChild(v, part, path[0]);
    }
  }

  /** Below a field that is not null the part and the value agree again. */
  lemma PartChild(v: Json, part: Json, key: string)
    requires Strip(part) == Strip(v) && v != Null && part != Null && (forall p :: IsNullAt(part, p) ==> IsNullAt(v, p))
    requires Child(v, key).Some? && Child(v, key).value != Null
    ensures Child(part, key).Some? && Strip(Child(part, key).value) == Strip(Child(v, key).value)
    ensures forall p :: IsNullAt(Child(part, key).value, p) ==> IsNullAt(Child(v, key).value, p)
  {
    if v.Arr? {
      assert Strip(part).items[IndexValue(key)] == Strip(v).items[IndexValue(key)];
    } else {
      assert key in Strip(v).fields && Strip(part).fields[key] == Strip(v).fields[key];
    }
    forall p | IsNullAt(Child(part, key).value, p) ensures IsNullAt(Child(v, key).value, p) {
      assert ([key] + p)[1..] == p;
      assert IsNullAt(part, [key] + p);
    }
  }

  lemma LastChild(v: Json, part: Json, key: string)
    requires Strip(part) == Strip(v) && v != Null && part != Null && Child(v, key) == Some(Null)
    ensures SetNull(part, [key]).Some?
  {
    if v.Arr? {
      assert Strip(part).items[IndexValue(key)] == Strip(v).items[IndexValue(key)] == PLACEHOLDER;
    } else {
      assert key !in Strip(v).fields;
    }
  }

  // ---------- Recording ----------

  /** `found` lists, without repetition, the null paths of `current` reached from `path` through `done`. */
  ghost predicate Lists(current: Json, path: Path, done: set<string>, found: seq<Path>) {
    && Distinct(found)
    && forall p :: p in found <==> path < p && p[|path|] in done && IsNullAt(current, p[|path|..])
  }

  ghost predicate ListsAll(current: Json, path: Path, found: seq<Path>) {
    && Distinct(found)
    && forall p :: p in found <==> path <= p && IsNullAt(current, p[|path|..])
  }

  lemma BelowKey(current: Json, path: Path, key: string, p: Path)
    requires Child(current, key).Some?
    ensures path + [key] <= p && IsNullAt(Child(current, key).value, p[|path| + 1..]) <==>
      path < p && p[|path|] == key && IsNullAt(current, p[|path|..])
  {
    if path < p && p[|path|] == key {
      assert p[..|path| + 1] == path + [key];
      NullBelow(current, p[|path|..]);
      assert p[|path|..][1..] == p[|path| + 1..];
    }
  }

  lemma ListOneMore(current: Json, path: Path, done: set<string>, found: seq<Path>, key: string, below: seq<Path>)
    requires Lists(current, path, done, found) && key !in done
    requires Child(current, key).Some? && ListsAll(Child(current, key).value, path + [key], below)
    ensures Lists(current, path, done + {key}, found + below)
  {
    forall p ensures p in below <==> path < p && p[|path|] == key && IsNullAt(current, p[|path|..]) {
      BelowKey(current, path, key, p);
    }
    hide IsNullAt;
    DistinctConcat(found, below);
  }

  lemma ListNull(path: Path)
    ensures ListsAll(Null, path, [path])
  {
    forall p ensures p in [path] <==> path <= p && IsNullAt(Null, p[|path|..]) {
      if path <= p {
        LeafNulls(p[|path|..]);
        assert p == path <==> p[|path|..] == [] by {
          assert p == path + p[|path|..];
        }
      }
    }
  }

  lemma ListsEvery(current: Json, path: Path, done: set<string>, found: seq<Path>)
    requires Lists(current, path, done, found) && current != Null
    requires forall k :: Child(current, k).Some? ==> k in done
    ensures ListsAll(current, path, found)
  {
    forall p | path <= p && IsNullAt(current, p[|path|..]) ensures path < p && p[|path|] in done {
      var q := p[|path|..];
      LeafNulls(q);
      assert q != [] && |p| > |path|;
      NullBelow(current, q);
      assert q[0] == p[|path|] && Child(current, q[0]).Some?;
    }
  }

  /** Strip nulls below `path`, returning the paths that the source pushes on its shared list. */
  method Encode(current: Json, path: Path) returns (encoded: Json, found: seq<Path>)
    requires current != Null
    ensures encoded == Strip(current) && ListsAll(current, path, found)
    decreases current
  {
    found := [];
    ghost var done: set<string> := {};
    match current
    case Arr(items) =>
      var stripped: seq<Json> := [];
      for i := 0 to |items|
        invariant |stripped| == i && forall j :: 0 <= j < i ==> stripped[j] == Strip(items[j])
        invariant done == IndexTexts(i)
        invariant Lists(current, path, done, found)
      {
        var key := IndexText(i);
        NextIndex(items, i);
        var item, below;
        if items[i] == Null {
          item, below := PLACEHOLDER, [path + [key]];
          ListNull(path + [key]);
        } else {
          item, below := Encode(items[i], path + [key]);
        }
        ListOneMore(current, path, done, found, key, below);
        stripped, found, done := stripped + [item], found + below, done + {key};
      }
      encoded := Arr(stripped);
      EveryIndex(items);
      ListsEvery(current, path, done, found);
    case Obj(fields) =>
      var stripped: map<string, Json> := map[];
      var left := fields.Keys;
      while left != {}
        invariant left <= fields.Keys && done == fields.Keys - left
        invariant stripped == map k | k in done && fields[k] != Null :: Strip(fields[k])
        invariant Lists(current, path, done, found)
      {
        var key :| key in left;
        left := left - {key};
        var below;
        if fields[key] == Null {
          below := [path + [key]];
          ListNull(path + [key]);
        } else {
          var field;
          field, below := Encode(fields[key], path + [key]);
          stripped := stripped[key := field];
        }
        ListOneMore(current, path, done, found, key, below);
        found, done := found + below, done + {key};
      }
      encoded := Obj(stripped);
      ListsEvery(current, path, done, found);
    case _ =>
      encoded := current;
      ListsEvery(current, path, {}, []);
  }

  ghost function IndexTexts(n: nat): set<string> {
    set i | 0 <= i < n :: IndexText(i)
  }

  lemma NextIndex(items: seq<Json>, i: nat)
    requires i < |items|
    ensures IndexTexts(i + 1) == IndexTexts(i) + {IndexText(i)} && IndexText(i) !in IndexTexts(i)
    ensures Child(Arr(items), IndexText(i)) == Some(items[i])
  {
    TextOfIndex(i);
    forall j | 0 <= j < i ensures IndexText(j) != IndexText(i) {
      TextOfIndex(j);
    }
  }

  lemma EveryIndex(items: seq<Json>)
    ensures forall k :: Child(Arr(items), k).Some? ==> k in IndexTexts(|items|)
  {
    forall k | Child(Arr(items), k).Some? ensures k in IndexTexts(|items|) {
      IndexOfText(k);
    }
  }

  function PathJson(path: Path): Json {
    Arr(seq(|path|, i requires 0 <= i < |path| => Str(path[i])))
  }

  function PathsJson(paths: seq<Path>): Json {
    Arr(seq(|paths|, i requires 0 <= i < |paths| => PathJson(paths[i])))
  }

  predicate IsPathJson(v: Json) {
    v.Arr? && v.items != [] && forall i :: 0 <= i < |v.items| ==> v.items[i].Str?
  }

  function PathOf(v: Json): Path
    requires IsPathJson(v)
  {
    seq(|v.items|, i requires 0 <= i < |v.items| => v.items[i].s)
  }

  predicate NonEmptyPaths(paths: seq<Path>) {
    forall i :: 0 <= i < |paths| ==> paths[i] != []
  }

  /** The metadata as the schema decodes it: a list of non-empty lists of strings. */
  function DecodePaths(v: Json): (r: Option<seq<Path>>)
    ensures r.Some? ==> NonEmptyPaths(r.value)
  {
    if v.Arr? && forall i :: 0 <= i < |v.items| ==> IsPathJson(v.items[i]) then
      Some(seq(|v.items|, i requires 0 <= i < |v.items| => PathOf(v.items[i])))
    else None
  }

  lemma PathsRoundTrip(paths: seq<Path>)
    requires NonEmptyPaths(paths)
    ensures DecodePaths(PathsJson(paths)) == Some(paths)
  {
    var v := PathsJson(paths);
    forall i | 0 <= i < |paths| ensures IsPathJson(v.items[i]) && PathOf(v.items[i]) == paths[i] {
      assert paths[i] in paths;
      assert PathOf(v.items[i]) == paths[i];
    }
    assert DecodePaths(v).value == paths;
  }

  function Recorded(v: Json, paths: seq<Path>): Json
    requires v.Obj?
  {
    Obj(Strip(v).fields[NULL_FIELDS := PathsJson(paths)])
  }

  method RecordNulls(v: Json) returns (stored: Json, ghost paths: seq<Path>)
    ensures !v.Obj? ==> stored == v
    ensures v.Obj? ==> ListsAll(v, [], paths) && stored == Recorded(v, paths)
  {
    paths := [];
    if v.Obj? {
      var encoded, found := Encode(v, []);
      paths := found;
      stored := Obj(encoded.fields[NULL_FIELDS := PathsJson(found)]);
    } else {
      stored := v;
    }
  }

  /** No recorded path is a proper prefix of another. */
  lemma {:induction false} NullPathsArePrefixFree(v: Json, p: Path, q: Path)
    requires IsNullAt(v, p) && IsNullAt(v, q) && p <= q
    ensures p == q
  {
    if p == [] {
      LeafNulls(q);
    } else {
      NullBelow(v, p);
      NullBelow(v, q);
      NullPathsArePrefixFree(Child(v, p[0]).value, p[1..], q[1..]);
      assert p == [p[0]] + p[1..] && q == [q[0]] + q[1..];
    }
  }

  // ---------- Restoring ----------

  function RestorePath(v: Json, path: Path): Option<Json>
    requires path != []
  {
    if path[0] == NULL_FIELDS then None else SetNull(v, path)
  }

  function RestoreAll(v: Json, paths: seq<Path>): Option<Json>
    requires NonEmptyPaths(paths)
    decreases |paths|
  {
    if paths == [] then Some(v)
    else
      match RestorePath(v, paths[0])
      case None => None
      case Some(v') => RestoreAll(v', paths[1..])
  }

  predicate HasMetadata(stored: Json) {
    stored.Obj? && NULL_FIELDS in stored.fields && DecodePaths(stored.fields[NULL_FIELDS]).Some?
  }

  function Body(stored: Json): Json
    requires stored.Obj?
  {
    Obj(stored.fields - {NULL_FIELDS})
  }

  /** None is the schema issue the codec raises. */
  function Restored(stored: Json): Option<Json> {
    if HasMetadata(stored) then RestoreAll(Body(stored), DecodePaths(stored.fields[NULL_FIELDS]).value) else None
  }

  method RestoreNulls(stored: Json) returns (r: Option<Json>)
    ensures r == Restored(stored)
  {
    if !stored.Obj? || NULL_FIELDS !in stored.fields {
      return None;
    }
    var decoded := DecodePaths(stored.fields[NULL_FIELDS]);
    if decoded.None? {
      return None;
    }
    var paths := decoded.value;
    var restored := Body(stored);
    for i := 0 to |paths|
      invariant RestoreAll(Body(stored), paths) == RestoreAll(restored, paths[i..])
    {
      assert paths[i..][0] == paths[i] && paths[i..][1..] == paths[i + 1..];
      var next := RestorePath(restored, paths[i]);
      if next.None? {
        return None;
      }
      restored := next.value;
    }
    r := Some(restored);
  }

  // ---------- What the codec promises ----------

  /** Restoring keeps the stripped value and makes exactly the listed paths null as well. */
  lemma {:induction false} RestoreAllAdds(v: Json, paths: seq<Path>)
    requires v.Obj? && NULL_FIELDS !in v.fields
    requires NonEmptyPaths(paths) && RestoreAll(v, paths).Some?
    ensures var v' := RestoreAll(v, paths).value;
      && v'.Obj? && NULL_FIELDS !in v'.fields && Strip(v') == Strip(v)
      && forall p :: IsNullAt(v', p) <==> IsNullAt(v, p) || p in paths
    decreases |paths|
  {
    if paths != [] {
      var next := SetNull(v, paths[0]).value;
      SetNullStrips(v, paths[0]);
      forall p ensures IsNullAt(next, p) <==> IsNullAt(v, p) || p == paths[0] {
        SetNullAddsOne(v, paths[0], p);
      }
      RestoreAllAdds(next, paths[1..]);
      assert paths == [paths[0]] + paths[1..];
    }
  }

  /** Restoring never fails on null paths of a value without a reserved field, in whatever order. */
  lemma {:induction false} RestoreAllSucceeds(v: Json, part: Json, paths: seq<Path>)
    requires v.Obj? && part.Obj? && NULL_FIELDS !in v.fields && NULL_FIELDS !in part.fields
    requires Strip(part) == Strip(v) && forall p :: IsNullAt(part, p) ==> IsNullAt(v, p)
    requires NonEmptyPaths(paths) && forall p :: p in paths ==> IsNullAt(v, p)
    ensures RestoreAll(part, paths).Some?
    decreases |paths|
  {
    if paths != [] {
      var path := paths[0];
      assert IsNullAt(v, path);
      NullBelow(v, path);
      SetNullSucceeds(v, part, path);
      var next := SetNull(part, path).value;
      SetNullStrips(part, path);
      forall p ensures IsNullAt(next, p) <==> IsNullAt(part, p) || p == path {
        SetNullAddsOne(part, path, p);
      }
      RestoreAllSucceeds(v, next, paths[1..]);
    }
  }

  lemma {:induction false} StrippedIsNullFree(v: Json, p: Path)
    ensures !IsNullAt(Strip(v), p)
    decreases |p|
  {
    LeafNulls(p);
    if p != [] {
      NullBelow(Strip(v), p);
      if Child(Strip(v), p[0]).Some? {
        var child := Child(v, p[0]).value;
        assert Child(Strip(v), p[0]).value == Strip(child);
        StrippedIsNullFree(child, p[1..]);
      }
    }
  }

  lemma {:induction false} StripKeepsNullFree(v: Json)
    requires NullFree(v)
    ensures Strip(v) == v
  {
    assert !IsNullAt(v, []);
    match v
    case Arr(items) =>
      forall i | 0 <= i < |items| ensures Strip(items[i]) == items[i] {
        TextOfIndex(i);
        NullFreeBelow(v, IndexText(i));
        StripKeepsNullFree(items[i]);
      }
    case Obj(fields) =>
      forall k | k in fields ensures fields[k] != Null && Strip(fields[k]) == fields[k] {
        NullFreeBelow(v, k);
        StripKeepsNullFree(fields[k]);
      }
    case _ =>
  }

  lemma NullFreeBelow(v: Json, key: string)
    requires NullFree(v) && Child(v, key).Some?
    ensures NullFree(Child(v, key).value) && Child(v, key).value != Null
  {
    forall p ensures !IsNullAt(Child(v, key).value, p) {
      assert !IsNullAt(v, [key] + p);
      assert ([key] + p)[1..] == p;
    }
    assert !IsNullAt(Child(v, key).value, []);
  }

  /** The provider keeps a value without nulls as it is. */
  lemma {:induction false} ProviderKeepsNullFree(v: Json)
    requires NullFree(v)
    ensures OmitNulls(v) == v
  {
    match v
    case Arr(items) =>
      forall i | 0 <= i < |items| ensures OmitNulls(items[i]) == items[i] {
        TextOfIndex(i);
        NullFreeBelow(v, IndexText(i));
        ProviderKeepsNullFree(items[i]);
      }
    case Obj(fields) =>
      forall k | k in fields ensures fields[k] != Null && OmitNulls(fields[k]) == fields[k] {
        NullFreeBelow(v, k);
        ProviderKeepsNullFree(fields[k]);
      }
    case _ =>
  }

  lemma MetadataIsNullFree(paths: seq<Path>)
    ensures NullFree(PathsJson(paths))
  {
    var v := PathsJson(paths);
    forall p ensures !IsNullAt(v, p) {
      if p != [] {
        NullBelow(v, p);
        if Child(v, p[0]).Some? {
          PathIsNullFree(paths[IndexValue(p[0])], p[1..]);
        }
      }
    }
  }

  lemma PathIsNullFree(path: Path, p: Path)
    ensures !IsNullAt(PathJson(path), p)
  {
    if p != [] {
      NullBelow(PathJson(path), p);
    }
  }

  /** What is recorded has no null left for the provider to drop. */
  lemma RecordedIsNullFree(v: Json, paths: seq<Path>)
    requires v.Obj?
    ensures NullFree(Recorded(v, paths))
  {
    var stored := Recorded(v, paths);
    forall p ensures !IsNullAt(stored, p) {
      if p != [] {
        NullBelow(stored, p);
        if p[0] == NULL_FIELDS {
          MetadataIsNullFree(paths);
        } else {
          StrippedIsNullFree(v, p);
          NullBelow(Strip(v), p);
        }
      }
    }
  }

  lemma RecordedMetadata(v: Json, paths: seq<Path>)
    requires v.Obj? && NULL_FIELDS !in v.fields && NonEmptyPaths(paths)
    ensures var stored := Recorded(v, paths);
      HasMetadata(stored) && DecodePaths(stored.fields[NULL_FIELDS]) == Some(paths) && Body(stored) == Strip(v)
  {
    PathsRoundTrip(paths);
    assert NULL_FIELDS !in Strip(v).fields;
    assert Recorded(v, paths).fields - {NULL_FIELDS} == Strip(v).fields;
  }

  /**
   * Whatever the order in which nulls were recorded, what the provider keeps restores to the value
   * exactly when the value has no top-level field of the reserved name.
   */
  lemma RoundTrip(v: Json, paths: seq<Path>)
    requires v.Obj? && forall p :: p in paths <==> IsNullAt(v, p)
    ensures Restored(OmitNulls(Recorded(v, paths))) == Some(v) <==> NULL_FIELDS !in v.fields
  {
    var stored := Recorded(v, paths);
    RecordedIsNullFree(v, paths);
    ProviderKeepsNullFree(stored);
    forall i | 0 <= i < |paths| ensures paths[i] != [] {
      assert paths[i] in paths && !IsNullAt(v, []);
    }
    if NULL_FIELDS in v.fields {
      RestoredHasNoReservedField(stored);
    } else {
      RecordedMetadata(v, paths);
      var body := Strip(v);
      assert forall p :: !IsNullAt(body, p) by {
        forall p ensures !IsNullAt(body, p) {
          StrippedIsNullFree(v, p);
        }
      }
      StripKeepsNullFree(body);
      RestoreAllSucceeds(v, body, paths);
      RestoreAllAdds(body, paths);
      StripInjective(RestoreAll(body, paths).value, v);
    }
  }

  lemma RestoredHasNoReservedField(stored: Json)
    ensures Restored(stored).Some? ==> Restored(stored).value.Obj? && NULL_FIELDS !in Restored(stored).value.fields
  {
    if Restored(stored).Some? {
      RestoreAllAdds(Body(stored), DecodePaths(stored.fields[NULL_FIELDS]).value);
    }
  }

  /**
   * Conversely a stored value without nulls that restores to `v` is what recording `v` stores, up to
   * the order and repetition of the paths in its metadata.
   */
  lemma RestoredIsRecorded(stored: Json)
    requires NullFree(stored) && Restored(stored).Some?
    ensures var v, paths := Restored(stored).value, DecodePaths(stored.fields[NULL_FIELDS]).value;
      && v.Obj? && NULL_FIELDS !in v.fields
      && (forall p :: p in paths <==> IsNullAt(v, p))
      && stored == Recorded(v, paths)
  {
    var paths := DecodePaths(stored.fields[NULL_FIELDS]).value;
    var body, v := Body(stored), Restored(stored).value;
    BodyIsNullFree(stored);
    RestoreAllAdds(body, paths);
    StripKeepsNullFree(body);
    PathsOfMetadata(stored.fields[NULL_FIELDS]);
    assert stored.fields == body.fields[NULL_FIELDS := PathsJson(paths)];
  }

  lemma BodyIsNullFree(stored: Json)
    requires stored.Obj? && NullFree(stored)
    ensures NullFree(Body(stored))
  {
    forall p ensures !IsNullAt(Body(stored), p) {
      assert !IsNullAt(stored, p);
      if p != [] {
        NullBelow(stored, p);
        NullBelow(Body(stored), p);
      }
    }
  }

  lemma PathsOfMetadata(v: Json)
    requires DecodePaths(v).Some?
    ensures PathsJson(DecodePaths(v).value) == v
  {
    var paths := DecodePaths(v).value;
    forall i | 0 <= i < |v.items| ensures PathJson(paths[i]) == v.items[i] {
      assert IsPathJson(v.items[i]) && paths[i] == PathOf(v.items[i]);
      assert PathJson(PathOf(v.items[i])).items == v.items[i].items;
    }
    assert PathsJson(paths).items == v.items;
  }
}
