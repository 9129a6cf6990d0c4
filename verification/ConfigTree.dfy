/** The configuration tree and its path lookups (pkg/config/config.go).

    Go ranges over a map in an unspecified order.  Here every such loop picks
    an arbitrary remaining key, so a contract that fixes the result states that
    the result does not depend on the order. */
module ConfigTree {
  import opened Options

  /** A key of a map[interface{}]interface{}: a string, or anything else. */
  datatype Key = Name(s: string) | Other(id: int)

  datatype Value =
    | Nil
    | Str(s: string)
    | Int(i: int)
    | Bool(b: bool)
    | Float(f: real)
    | List(items: seq<Value>)
    | Dict(entries: map<string, Value>)
    | AnyDict(any: map<Key, Value>)

  /** The map inside a Config object. */
  type Entries = map<string, Value>

  /** What a lookup returns: a value of the tree, or a new Config object. */
  datatype Found = Raw(v: Value) | Sub(config: Entries)

  const NOTHING: Entries := map[]

  // ---------------------------------------------------------------- keys

  /** strings.Split(s, "."). */
  function Split(s: string): (parts: seq<string>)
    ensures |parts| >= 1
  {
    if s == "" then [""]
    else if s[0] == '.' then [""] + Split(s[1..])
    else
      var rest := Split(s[1..]);
      [[s[0]] + rest[0]] + rest[1..]
  }

  function Join(parts: seq<string>): string
    requires |parts| >= 1
  {
    if |parts| == 1 then parts[0] else parts[0] + "." + Join(parts[1..])
  }

  /** Split yields the one dot-free list of parts that joins back to s. */
  lemma {:induction false} SplitJoin(s: string)
    ensures Join(Split(s)) == s
    ensures forall i :: 0 <= i < |Split(s)| ==> '.' !in Split(s)[i]
  {
    if s != "" {
      SplitJoin(s[1..]);
      var rest := Split(s[1..]);
      if s[0] == '.' {
        assert Split(s)[1..] == rest;
        assert s == "." + s[1..];
      } else {
        assert Split(s)[1..] == rest[1..];
        assert s == [s[0]] + s[1..];
      }
    }
  }

  lemma {:induction false} SplitPlain(s: string)
    requires '.' !in s
    ensures Split(s) == [s]
  {
    if s != "" {
      SplitPlain(s[1..]);
      assert s == [s[0]] + s[1..];
    }
  }

  lemma {:induction false} SplitConcat(a: string, b: string)
    ensures Split(a + "." + b) == Split(a) + Split(b)
  {
    var whole := a + "." + b;
    if a == "" {
      assert whole[1..] == b;
    } else {
      assert whole[1..] == a[1..] + "." + b;
      SplitConcat(a[1..], b);
    }
  }

  // ------------------------------------------------- maps with any keys

  predicate AllNames(any: map<Key, Value>) {
    forall k :: k in any ==> k.Name?
  }

  function StringMap(any: map<Key, Value>): Entries {
    map k | k in any && k.Name? :: k.s := any[k]
  }

  method CreateStringMap(val: map<Key, Value>) returns (subMap: Entries, ok: bool)
    ensures ok == AllNames(val)
    ensures ok ==> subMap == StringMap(val)
  {
    subMap := map[];
    var rest := val.Keys;
    while rest != {}
      invariant rest <= val.Keys
      invariant forall k :: k in val && k !in rest ==> k.Name?
      invariant forall s :: s in subMap <==> Name(s) in val && Name(s) !in rest
      invariant forall s :: s in subMap ==> subMap[s] == val[Name(s)]
      decreases |rest|
    {
      var key :| key in rest;
      if key.Name? {
        subMap := subMap[key.s := val[key]];
      } else {
        return subMap, false;
      }
      rest := rest - {key};
    }
    assert forall s :: s in subMap <==> s in StringMap(val) by {
      forall s ensures Name(s) in val <==> s in StringMap(val) {
        if Name(s) in val {
          var k := Name(s);
          assert k in val && k.Name? && k.s == s;
        }
      }
    }
    return subMap, true;
  }

  // ------------------------------------------------------ lists of maps

  /** An element that the array helpers accept. */
  predicate Usable(v: Value) {
    v.Dict? || (v.AnyDict? && AllNames(v.any))
  }

  function EntriesOf(v: Value): Entries
    requires Usable(v)
  {
    if v.Dict? then v.entries else StringMap(v.any)
  }

  /** The length of the longest prefix of usable elements. */
  function UsablePrefix(vals: seq<Value>): (n: nat)
    ensures n <= |vals|
    ensures forall i :: 0 <= i < n ==> Usable(vals[i])
    ensures n < |vals| ==> !Usable(vals[n])
  {
    if vals == [] || !Usable(vals[0]) then 0 else 1 + UsablePrefix(vals[1..])
  }

  /** The name under which an element of a list is indexed.  Only a map with
      arbitrary keys falls back to "type", and only without any "name". */
  function IndexKey(v: Value): Option<string>
    requires Usable(v)
  {
    var s := EntriesOf(v);
    if "name" in s then
      if s["name"].Str? then Some(s["name"].s) else None
    else if v.AnyDict? && "type" in s && s["type"].Str? then Some(s["type"].s)
    else None
  }

  /** The index of a list: a later element replaces an earlier one of its name. */
  function ByName(vals: seq<Value>): Entries {
    if vals == [] || !Usable(vals[0]) then map[]
    else
      var rest := ByName(vals[1..]);
      var key := IndexKey(vals[0]);
      if key.Some? then map[key.value := vals[0]] + rest else rest
  }

  /** i is the last usable position indexed as n. */
  ghost predicate LastNamed(vals: seq<Value>, n: string, i: nat) {
    && i < UsablePrefix(vals)
    && IndexKey(vals[i]) == Some(n)
    && forall j :: i < j < UsablePrefix(vals) ==> IndexKey(vals[j]) != Some(n)
  }

  /** A lookup by name returns the last element of that name before the first
      malformed one, and nothing exactly when there is no such element. */
  lemma {:induction false} ByNameExact(vals: seq<Value>, n: string)
    ensures n in ByName(vals) <==> exists i :: 0 <= i < UsablePrefix(vals) && IndexKey(vals[i]) == Some(n)
    ensures n in ByName(vals) ==> exists i: nat :: LastNamed(vals, n, i) && ByName(vals)[n] == vals[i]
  {
    if vals != [] && Usable(vals[0]) {
      var rest := vals[1..];
      ByNameExact(rest, n);
      forall j | 0 <= j < UsablePrefix(rest) ensures IndexKey(vals[j + 1]) == IndexKey(rest[j]) {}
      if n in ByName(rest) {
        var i: nat :| LastNamed(rest, n, i) && ByName(rest)[n] == rest[i];
        forall j | i + 1 < j < UsablePrefix(vals) ensures IndexKey(vals[j]) != Some(n) {
          assert vals[j] == rest[j - 1];
        }
        assert LastNamed(vals, n, i + 1);
      } else {
        forall j | 0 < j < UsablePrefix(vals) ensures IndexKey(vals[j]) != Some(n) {
          assert vals[j] == rest[j - 1];
        }
        if IndexKey(vals[0]) == Some(n) {
          assert LastNamed(vals, n, 0);
        }
      }
    }
  }

  lemma {:induction false} ByNameSnoc(vals: seq<Value>, i: nat)
    requires i < UsablePrefix(vals)
    ensures ByName(vals[..i + 1]) ==
            var key := IndexKey(vals[i]);
            if key.Some? then ByName(vals[..i])[key.value := vals[i]] else ByName(vals[..i])
  {
    hide IndexKey;
    if i == 0 {
      assert vals[..1] == [vals[0]];
    } else {
      ByNameSnoc(vals[1..], i - 1);
      assert vals[..i + 1][1..] == vals[1..][..i];
      assert vals[..i][1..] == vals[1..][..i - 1];
    }
  }

  lemma {:induction false} ByNameStops(vals: seq<Value>)
    ensures ByName(vals) == ByName(vals[..UsablePrefix(vals)])
  {
    if vals != [] && Usable(vals[0]) {
      ByNameStops(vals[1..]);
      assert vals[..UsablePrefix(vals)][1..] == vals[1..][..UsablePrefix(vals[1..])];
    }
  }

  method CreateSubMapFromArray(val: seq<Value>) returns (subMap: Entries)
    ensures subMap == ByName(val)
  {
    subMap := map[];
    ByNameStops(val);
    for i := 0 to |val|
      invariant i <= UsablePrefix(val)
      invariant subMap == ByName(val[..i])
    {
      var value := val[i];
      match value
      case Dict(v) =>
        ByNameSnoc(val, i);
        if "name" in v && v["name"].Str? {
          subMap := subMap[v["name"].s := value];
        }
      case AnyDict(v) =>
        var s, ok := CreateStringMap(v);
        if !ok {
          assert UsablePrefix(val) == i;
          return;
        }
        ByNameSnoc(val, i);
        if "name" in s {
          if s["name"].Str? {
            subMap := subMap[s["name"].s := value];
          }
        } else if "type" in s {
          if s["type"].Str? {
            subMap := subMap[s["type"].s := value];
          }
        }
      case _ =>
        assert UsablePrefix(val) == i;
        return;
    }
    assert val[..|val|] == val;
  }

  /** The sub-configurations of a list: the usable prefix, in document order. */
  ghost predicate SubConfigs(vals: seq<Value>, configs: seq<Entries>) {
    && |configs| == UsablePrefix(vals)
    && forall i :: 0 <= i < |configs| ==> configs[i] == EntriesOf(vals[i])
  }

  method CreateSubConfigForArray(vals: seq<Value>) returns (configs: seq<Entries>)
    ensures SubConfigs(vals, configs)
  {
    configs := [];
    for i := 0 to |vals|
      invariant i <= UsablePrefix(vals)
      invariant |configs| == i
      invariant forall j :: 0 <= j < i ==> configs[j] == EntriesOf(vals[j])
    {
      match vals[i]
      case Dict(v) =>
        configs := configs + [v];
      case AnyDict(v) =>
        var s, ok := CreateStringMap(v);
        if !ok {
          return;
        }
        configs := configs + [s];
      case _ =>
        return;
    }
  }

  // ------------------------------------------------------- path lookup

  function At(m: Entries, key: string): Value {
    if key in m then m[key] else Nil
  }

  /** The meaning of a path: descend one key at a time.  A list in the middle
      of a path is entered by name; a scalar or a map with a key that is not a
      string ends the descent with an empty configuration. */
  function Descend(keys: seq<string>, m: Entries): Found {
    if keys == [] then Raw(Nil)
    else
      var last := |keys| == 1;
      match At(m, keys[0])
      case Dict(d) => if last then Sub(d) else Descend(keys[1..], d)
      case AnyDict(a) =>
        if !AllNames(a) then Sub(NOTHING)
        else if last then Sub(StringMap(a))
        else Descend(keys[1..], StringMap(a))
      case List(l) => if last then Raw(List(l)) else Descend(keys[1..], ByName(l))
      case scalar => if last then Raw(scalar) else Sub(NOTHING)
  }

  method RetrieveValueFromKeys(keys: seq<string>, top: Entries) returns (found: Found)
    ensures found == Descend(keys, top)
  {
    var val := Nil;
    var subMap := top;
    for i := 0 to |keys|
      invariant i < |keys| || keys == []
      invariant val == Nil || i > 0
      invariant Descend(keys, top) == Descend(keys[i..], subMap)
    {
      val := At(subMap, keys[i]);
      assert keys[i..][1..] == keys[i + 1..];
      match val
      case Dict(d) =>
        subMap := d;
        if i == |keys| - 1 {
          return Sub(d);
        }
      case AnyDict(a) =>
        var s, ok := CreateStringMap(a);
        if !ok {
          return Sub(NOTHING);
        }
        subMap := s;
        if i == |keys| - 1 {
          return Sub(subMap);
        }
      case List(l) =>
        if i == |keys| - 1 {
          return Raw(val);
        }
        subMap := CreateSubMapFromArray(l);
      case _ =>
        if i == |keys| - 1 {
          return Raw(val);
        }
        return Sub(NOTHING);
    }
    return Raw(val);
  }

  // ----------------------------------------------------- typed getters

  function Lookup(m: Entries, key: string): Found {
    Descend(Split(key), m)
  }

  function GetString(m: Entries, key: string): string {
    match Lookup(m, key) case Raw(Str(s)) => s case _ => ""
  }

  function GetInt(m: Entries, key: string): int {
    match Lookup(m, key) case Raw(Int(i)) => i case _ => 0
  }

  function GetBoolWithDefault(m: Entries, key: string, ifNotFound: bool): bool {
    match Lookup(m, key) case Raw(Bool(b)) => b case _ => ifNotFound
  }

  function GetBool(m: Entries, key: string): bool {
    GetBoolWithDefault(m, key, false)
  }

  function GetFloat64(m: Entries, key: string): real {
    match Lookup(m, key) case Raw(Float(f)) => f case _ => 0.0
  }

  function GetSubConfig(m: Entries, key: string): Entries {
    match Lookup(m, key) case Sub(c) => c case _ => NOTHING
  }

  /** The list a key resolves to; the three list getters read nothing else. */
  function ListAt(m: Entries, key: string): seq<Value> {
    match Lookup(m, key) case Raw(List(l)) => l case _ => []
  }

  function StringsIn(vals: seq<Value>): seq<string> {
    if forall v :: v in vals ==> v.Str? then
      seq(|vals|, i requires 0 <= i < |vals| => assert vals[i] in vals; vals[i].s)
    else []
  }

  function StringEntries(m: Entries): map<string, string> {
    map k | k in m && m[k].Str? :: m[k].s
  }

  /** Only the first element of a list of maps counts. */
  function FirstStrings(vals: seq<Value>): map<string, string> {
    if vals != [] && Usable(vals[0]) then StringEntries(EntriesOf(vals[0])) else map[]
  }

  method GetSliceOfStrings(m: Entries, key: string) returns (s: seq<string>)
    ensures s == StringsIn(ListAt(m, key))
  {
    var val := RetrieveValueFromKeys(Split(key), m);
    s := [];
    if val.Raw? && val.v.List? {
      var vals := val.v.items;
      for i := 0 to |vals|
        invariant |s| == i
        invariant forall j :: 0 <= j < i ==> vals[j] == Str(s[j])
      {
        if vals[i].Str? {
          s := s + [vals[i].s];
        } else {
          assert vals[i] in vals;
          return [];
        }
      }
    }
  }

  method GetSubConfigArray(m: Entries, key: string) returns (configs: seq<Entries>)
    ensures SubConfigs(ListAt(m, key), configs)
  {
    var val := RetrieveValueFromKeys(Split(key), m);
    if val.Raw? && val.v.List? {
      configs := CreateSubConfigForArray(val.v.items);
    } else {
      configs := [];
    }
  }

  method GetMapOfStrings(m: Entries, key: string) returns (newMap: map<string, string>)
    ensures newMap == FirstStrings(ListAt(m, key))
  {
    var subMap := GetSubConfigArray(m, key);
    newMap := map[];
    if |subMap| > 0 {
      var sMap := subMap[0];
      var rest := sMap.Keys;
      while rest != {}
        invariant rest <= sMap.Keys
        invariant forall k :: k in newMap <==> k in sMap && k !in rest && sMap[k].Str?
        invariant forall k :: k in newMap ==> newMap[k] == sMap[k].s
        decreases |rest|
      {
        var k :| k in rest;
        if sMap[k].Str? {
          newMap := newMap[k := sMap[k].s];
        }
        rest := rest - {k};
      }
    }
  }

  // --------------------------------------------- getters, key by key

  /** v maps k to x: as a dictionary, or as a map whose keys are all strings. */
  predicate Holds(v: Value, k: string, x: Value) {
    match v
    case Dict(d) => k in d && d[k] == x
    case AnyDict(a) => (forall key :: key in a ==> key.Name?) && Name(k) in a && a[Name(k)] == x
    case _ => false
  }

  /** The usable elements are the dictionaries and the maps without other keys
      than strings, and their entries are what they hold. */
  lemma UsableExactly(v: Value)
    ensures Usable(v) <==> v.Dict? || (v.AnyDict? && forall key :: key in v.any ==> key.Name?)
    ensures Usable(v) ==> forall k, x :: (k in EntriesOf(v) && EntriesOf(v)[k] == x) <==> Holds(v, k, x)
  {
    if v.AnyDict? && Usable(v) {
      forall k ensures k in StringMap(v.any) <==> Name(k) in v.any {
        if Name(k) in v.any {
          var key := Name(k);
          assert key in v.any && key.Name? && key.s == k;
        }
      }
    }
  }

  /** An element is indexed as n when it holds the string n under "name", or,
      being a map with arbitrary keys and holding nothing under "name", under "type". */
  lemma IndexExactly(v: Value, n: string)
    requires Usable(v)
    ensures IndexKey(v) == Some(n) <==>
            || Holds(v, "name", Str(n))
            || (v.AnyDict? && Name("name") !in v.any && Holds(v, "type", Str(n)))
  {
    UsableExactly(v);
    var s := EntriesOf(v);
    assert "name" in s ==> Holds(v, "name", s["name"]);
    assert "type" in s ==> Holds(v, "type", s["type"]);
    if v.AnyDict? && Name("name") in v.any {
      assert Holds(v, "name", v.any[Name("name")]);
    }
  }

  /** The elements of the list under a key, if there is one. */
  function ItemsUnder(m: Entries, key: string): seq<Value> {
    if key in m && m[key].List? then m[key].items else []
  }

  function TextUnder(m: Entries, key: string): string {
    if key in m && m[key].Str? then m[key].s else ""
  }

  /** On a key without dots every getter reads the entry under that key, if it
      has the getter's type, and else gives its default. */
  lemma GettersPlain(m: Entries, key: string)
    requires '.' !in key
    ensures GetString(m, key) == TextUnder(m, key)
    ensures GetInt(m, key) == if key in m && m[key].Int? then m[key].i else 0
    ensures forall d :: GetBoolWithDefault(m, key, d) == if key in m && m[key].Bool? then m[key].b else d
    ensures GetBool(m, key) == (key in m && m[key].Bool? && m[key].b)
    ensures GetFloat64(m, key) == if key in m && m[key].Float? then m[key].f else 0.0
    ensures GetSubConfig(m, key) == if key in m && Usable(m[key]) then EntriesOf(m[key]) else NOTHING
    ensures ListAt(m, key) == ItemsUnder(m, key)
  {
    hide Split;
    SplitPlain(key);
  }

  /** r holds exactly the string entries of the first element under a key. */
  ghost predicate StringsRead(m: Entries, key: string, r: map<string, string>) {
    var vals := ItemsUnder(m, key);
    forall k, s :: (k in r && r[k] == s) <==> (vals != [] && Holds(vals[0], k, Str(s)))
  }

  lemma StringsAreRead(m: Entries, key: string)
    requires '.' !in key
    ensures StringsRead(m, key, FirstStrings(ListAt(m, key)))
  {
    hide Lookup;
    GettersPlain(m, key);
    var vals := ItemsUnder(m, key);
    if vals != [] {
      UsableExactly(vals[0]);
    }
  }

  /** r is the list of strings under a key, if all its elements are strings. */
  ghost predicate WordsRead(m: Entries, key: string, r: seq<string>) {
    var vals := ItemsUnder(m, key);
    if forall i :: 0 <= i < |vals| ==> vals[i].Str? then
      |r| == |vals| && forall i :: 0 <= i < |vals| ==> vals[i] == Str(r[i])
    else r == []
  }

  lemma WordsAreRead(m: Entries, key: string)
    requires '.' !in key
    ensures WordsRead(m, key, StringsIn(ListAt(m, key)))
  {
    hide Lookup;
    GettersPlain(m, key);
    var vals := ItemsUnder(m, key);
    if forall i :: 0 <= i < |vals| ==> vals[i].Str? {
      assert forall v :: v in vals ==> v.Str?;
    } else {
      var i :| 0 <= i < |vals| && !vals[i].Str?;
      assert vals[i] in vals;
    }
  }

  // -------------------------------------------------- path composition

  /** No getter tells two such results apart. */
  predicate Void(f: Found) {
    f == Raw(Nil) || f == Sub(NOTHING)
  }

  predicate Alike(f: Found, g: Found) {
    f == g || (Void(f) && Void(g))
  }

  /** Every getter gives the same answer on both sides. */
  ghost predicate GettersAgree(m: Entries, k: string, m': Entries, k': string) {
    && GetString(m, k) == GetString(m', k')
    && GetInt(m, k) == GetInt(m', k')
    && (forall d :: GetBoolWithDefault(m, k, d) == GetBoolWithDefault(m', k', d))
    && GetFloat64(m, k) == GetFloat64(m', k')
    && GetSubConfig(m, k) == GetSubConfig(m', k')
    && ListAt(m, k) == ListAt(m', k')
  }

  /** Where the descent continues after the keys of a path. */
  function Entered(f: Found): Entries {
    match f
    case Sub(c) => c
    case Raw(List(l)) => ByName(l)
    case _ => NOTHING
  }

  lemma NothingInside(keys: seq<string>)
    ensures Void(Descend(keys, NOTHING))
  {
  }

  lemma {:induction false} DescendConcat(ka: seq<string>, kb: seq<string>, m: Entries)
    requires ka != [] && kb != []
    ensures Alike(Descend(ka + kb, m), Descend(kb, Entered(Descend(ka, m))))
  {
    var keys := ka + kb;
    NothingInside(kb);
    if |ka| == 1 {
      assert keys[1..] == kb;
    } else {
      assert keys[1..] == ka[1..] + kb;
      match At(m, ka[0])
      case Dict(d) => DescendConcat(ka[1..], kb, d);
      case AnyDict(a) => DescendConcat(ka[1..], kb, StringMap(a));
      case List(l) => DescendConcat(ka[1..], kb, ByName(l));
      case _ =>
    }
  }

  /** Looking up "a.b" is looking up a and then b inside it. */
  lemma LookupConcat(m: Entries, a: string, b: string)
    ensures GettersAgree(m, a + "." + b, Entered(Lookup(m, a)), b)
  {
    SplitConcat(a, b);
    DescendConcat(Split(a), Split(b), m);
  }

  /** The composition law through GetSubConfig, away from lists. */
  lemma PathComposition(m: Entries, a: string, b: string)
    requires !(Lookup(m, a).Raw? && Lookup(m, a).v.List?)
    ensures GettersAgree(m, a + "." + b, GetSubConfig(m, a), b)
  {
    LookupConcat(m, a, b);
  }

  /** a resolves to a list one of whose elements a path can reach by name. */
  ghost predicate NamesElement(m: Entries, a: string, n: string) {
    n in ByName(ListAt(m, a)) && '.' !in n
  }

  lemma {:induction false} ByNameUsable(vals: seq<Value>, n: string)
    requires n in ByName(vals)
    ensures Usable(ByName(vals)[n]) && EntriesOf(ByName(vals)[n]) != NOTHING
  {
    ByNameExact(vals, n);
    var i: nat :| LastNamed(vals, n, i) && ByName(vals)[n] == vals[i];
    var s := EntriesOf(vals[i]);
    assert "name" in s || "type" in s;
  }

  /** The law holds for every second key exactly when a does not resolve to a
      list with an element that a path can name. */
  lemma PathCompositionExact(m: Entries, a: string)
    ensures (forall b :: GettersAgree(m, a + "." + b, GetSubConfig(m, a), b))
       <==> !exists n :: NamesElement(m, a, n)
  {
    if n :| NamesElement(m, a, n) {
      SplitPlain(n);
      LookupConcat(m, a, n);
      ByNameUsable(ListAt(m, a), n);
      assert GetSubConfig(NOTHING, n) == NOTHING;
      assert GetSubConfig(ByName(ListAt(m, a)), n) != NOTHING;
      assert !GettersAgree(m, a + "." + n, GetSubConfig(m, a), n);
    } else {
      forall b ensures GettersAgree(m, a + "." + b, GetSubConfig(m, a), b) {
        LookupConcat(m, a, b);
        if Lookup(m, a).Raw? && Lookup(m, a).v.List? {
          SplitJoin(b);
          var first := Split(b)[0];
          assert '.' !in first;
          assert !NamesElement(m, a, first);
          NothingInside(Split(b));
        }
      }
    }
  }
}
