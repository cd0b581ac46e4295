/**
 * Encoding: `marshalWithType` (the map-building encoder that injects the
 * "type" discriminator), `SmartMarshalFromJSON`, the two hand-written
 * encoders (GridColumnWidth, TargetElement), and `json.Marshal` over the
 * model's values.
 */
module Marshal {
  import opened Wrappers
  import opened Json
  import opened Schema
  import opened Values
  import opened Registry
  import opened Text

  /** Both failures carry no data: the source reports a fixed message for each. */
  datatype MarshalError = UnregisteredType | NotAStruct

  /** `parseJSONTag`: the name part of a json tag; "" for an absent or `-` tag. */
  function ParseJsonTag(tag: string): string
  {
    if tag == "" || tag == "-" then ""
    else
      var idx := IndexOf(tag, ',');
      if idx != -1 then tag[..idx] else tag
  }

  /** The name `parseJSONTag` extracts is the first comma-separated part of the tag, and holds no comma. */
  lemma ParseJsonTagIsFirstPart(tag: string)
    requires tag != "" && tag != "-"
    ensures ParseJsonTag(tag) == Split(tag, ',')[0]
    ensures ',' !in ParseJsonTag(tag)
  {
    IndexOfFirst(tag, ',');
    if IndexOf(tag, ',') == -1 {
      SplitWhole(tag, ',');
    } else {
      SplitAtFirst(tag, ',');
    }
  }

  /**
   * What `marshalWithType` reads off a json tag: the key and whether the
   * first option is `omitempty`; None when the tag is absent or `-`.
   */
  function TagKey(tag: string): Option<(string, bool)>
  {
    if tag == "" || tag == "-" then None
    else
      var i := IndexOf(tag, ',');
      if i == -1 then Some((tag, false))
      else
        var rest := tag[i + 1..];
        var j := IndexOf(rest, ',');
        Some((tag[..i], (if j == -1 then rest else rest[..j]) == "omitempty"))
  }

  /**
   * `TagKey` is the source's reading through `strings.Split(tag, ",")`: the
   * key is the first part, `omitempty` is a second part equal to
   * "omitempty"; and the key is the name `parseJSONTag` gives.
   */
  lemma TagKeySplit(tag: string)
    requires tag != "" && tag != "-"
    ensures var parts := Split(tag, ',');
      TagKey(tag) == Some((parts[0], |parts| > 1 && parts[1] == "omitempty"))
    ensures TagKey(tag).value.0 == ParseJsonTag(tag)
  {
    var i := IndexOf(tag, ',');
    if i == -1 {
      SplitWhole(tag, ',');
    } else {
      SplitAtFirst(tag, ',');
      var rest := tag[i + 1..];
      if IndexOf(rest, ',') == -1 {
        SplitWhole(rest, ',');
      } else {
        SplitAtFirst(rest, ',');
      }
    }
  }

  /** The entry a field adds to the encoder's map: none for a skipped tag or an empty `omitempty` field. */
  function Entry(f: Field, fv: Value): (es: seq<(string, Value)>)
    ensures |es| <= 1
  {
    var key := TagKey(JsonTag(f));
    if key.None? || (key.value.1 && IsZero(fv, f.ty)) then [] else [(key.value.0, fv)]
  }

  /**
   * A field is left out exactly when its tag is absent or `-`, or it is
   * `omitempty` and empty; otherwise its entry is keyed by its tag name and
   * holds its value.
   */
  lemma EntryOmitted(f: Field, fv: Value)
    ensures Entry(f, fv) == [] <==>
      (JsonTag(f) == "" || JsonTag(f) == "-" || (TagKey(JsonTag(f)).value.1 && IsZero(fv, f.ty)))
    ensures Entry(f, fv) != [] ==> Entry(f, fv) == [(ParseJsonTag(JsonTag(f)), fv)]
  {
  }

  /** The entries of the first `n` fields of a group value whose field table is `schema`. */
  function GroupEntries(schema: seq<Field>, fs: seq<Value>, n: nat): seq<(string, Value)>
    requires n <= |schema|
  {
    if n == 0 then [] else GroupEntries(schema, fs, n - 1) + Entry(schema[n - 1], At(schema, fs, n - 1))
  }

  lemma {:induction false} GroupEntriesBounded(schema: seq<Field>, fs: seq<Value>, n: nat)
    requires n <= |schema|
    ensures forall k :: 0 <= k < |GroupEntries(schema, fs, n)| ==> Size(GroupEntries(schema, fs, n)[k].1) < 2 + FieldsSize(fs)
  {
    if n > 0 {
      GroupEntriesBounded(schema, fs, n - 1);
      FieldSmaller(schema, fs, n - 1);
    }
  }

  /** The group an embedded field's value holds: the struct, through the pointer when it is non-nil. */
  function GroupOf(fv: Value): (r: Option<Value>)
    ensures r.Some? ==> r.value.Struct? && Size(r.value) <= Size(fv)
  {
    match fv
    case Ptr(Struct(g, gfs)) => Some(Struct(g, gfs))
    case Struct(g, gfs) => Some(fv)
    case _ => None
  }

  /** The entries of every field of a group value. */
  function AllGroupEntries(tables: Tables, gv: Value): seq<(string, Value)>
    requires gv.Struct?
  {
    GroupEntries(tables(gv.ty), gv.fields, |tables(gv.ty)|)
  }

  /** The entries a field contributes: an embedded group is flattened into its own fields' entries. */
  function FieldEntries(tables: Tables, f: Field, fv: Value): seq<(string, Value)>
  {
    if f.embedded then
      match GroupOf(fv)
      case Some(gv) => AllGroupEntries(tables, gv)
      case None => []
    else Entry(f, fv)
  }

  lemma FieldEntriesBounded(tables: Tables, f: Field, fv: Value)
    ensures forall k :: 0 <= k < |FieldEntries(tables, f, fv)| ==> Size(FieldEntries(tables, f, fv)[k].1) <= Size(fv)
  {
    if f.embedded && GroupOf(fv).Some? {
      var gv := GroupOf(fv).value;
      GroupEntriesBounded(tables(gv.ty), gv.fields, |tables(gv.ty)|);
    }
  }

  /** The entries of the first `n` fields of a struct value, in field order, embedded groups flattened. */
  function Entries(tables: Tables, schema: seq<Field>, fs: seq<Value>, n: nat): seq<(string, Value)>
    requires n <= |schema|
  {
    if n == 0 then [] else Entries(tables, schema, fs, n - 1) + FieldEntries(tables, schema[n - 1], At(schema, fs, n - 1))
  }

  lemma {:induction false} EntriesBounded(tables: Tables, schema: seq<Field>, fs: seq<Value>, n: nat)
    requires n <= |schema|
    ensures forall k :: 0 <= k < |Entries(tables, schema, fs, n)| ==> Size(Entries(tables, schema, fs, n)[k].1) < 2 + FieldsSize(fs)
  {
    if n > 0 {
      EntriesBounded(tables, schema, fs, n - 1);
      FieldSmaller(schema, fs, n - 1);
      FieldEntriesBounded(tables, schema[n - 1], At(schema, fs, n - 1));
    }
  }

  /** Go map assignment in order: a later entry overwrites an earlier one with the same key. */
  function MapOf(m0: map<string, Value>, es: seq<(string, Value)>): map<string, Value>
  {
    if es == [] then m0 else MapOf(m0, es[..|es| - 1])[es[|es| - 1].0 := es[|es| - 1].1]
  }

  function KeysOf(es: seq<(string, Value)>): set<string>
  {
    set i | 0 <= i < |es| :: es[i].0
  }

  /** The keys are the initial ones and those of the entries. */
  lemma {:induction false} MapOfKeys(m0: map<string, Value>, es: seq<(string, Value)>, key: string)
    ensures key in MapOf(m0, es) <==> key in m0 || key in KeysOf(es)
    decreases |es|
  {
    if es != [] {
      var init := es[..|es| - 1];
      MapOfKeys(m0, init, key);
      if key in KeysOf(init) {
        var i :| 0 <= i < |init| && init[i].0 == key;
        assert es[i].0 == key;
      }
      if key in KeysOf(es) {
        var i :| 0 <= i < |es| && es[i].0 == key;
        if i < |init| {
          assert init[i].0 == key;
        }
      }
    }
  }

  /** The value stored under a key is the one of its last entry. */
  lemma {:induction false} MapOfLast(m0: map<string, Value>, es: seq<(string, Value)>, key: string, i: nat)
    requires i < |es| && es[i].0 == key
    requires forall j :: i < j < |es| ==> es[j].0 != key
    ensures key in MapOf(m0, es) && MapOf(m0, es)[key] == es[i].1
    decreases |es|
  {
    if i < |es| - 1 {
      MapOfLast(m0, es[..|es| - 1], key, i);
    }
  }

  /** A key no entry assigns keeps its initial value. */
  lemma {:induction false} MapOfUntouched(m0: map<string, Value>, es: seq<(string, Value)>, key: string)
    requires key in m0
    requires forall j :: 0 <= j < |es| ==> es[j].0 != key
    ensures key in MapOf(m0, es) && MapOf(m0, es)[key] == m0[key]
    decreases |es|
  {
    if es != [] {
      MapOfUntouched(m0, es[..|es| - 1], key);
    }
  }

  lemma {:induction false} MapOfBounded(m0: map<string, Value>, es: seq<(string, Value)>, bound: nat)
    requires forall k :: k in m0 ==> Size(m0[k]) < bound
    requires forall k :: 0 <= k < |es| ==> Size(es[k].1) < bound
    ensures forall k :: k in MapOf(m0, es) ==> Size(MapOf(m0, es)[k]) < bound
    decreases |es|
  {
    if es != [] {
      MapOfBounded(m0, es[..|es| - 1], bound);
    }
  }

  lemma {:induction false} MapOfAppend(m0: map<string, Value>, a: seq<(string, Value)>, b: seq<(string, Value)>)
    ensures MapOf(m0, a + b) == MapOf(MapOf(m0, a), b)
    decreases |b|
  {
    if b == [] {
      assert a + b == a;
    } else {
      assert (a + b)[..|a + b| - 1] == a + b[..|b| - 1];
      assert (a + b)[|a + b| - 1] == b[|b| - 1];
      MapOfAppend(m0, a, b[..|b| - 1]);
    }
  }

  lemma MapOfOne(m: map<string, Value>, e: seq<(string, Value)>)
    requires |e| <= 1
    ensures MapOf(m, e) == if e == [] then m else m[e[0].0 := e[0].1]
  {
    if e != [] {
      assert e[..0] == [];
    }
  }

  /** The keys a struct value's fields contribute. */
  function EntryKeys(tables: Tables, t: TypeName, fs: seq<Value>): set<string>
  {
    KeysOf(Entries(tables, tables(t), fs, |tables(t)|))
  }

  /** The map `marshalWithType` builds for a struct value: "type" first, then every field's entries in order. */
  function Collected(tables: Tables, t: TypeName, fs: seq<Value>, name: string): map<string, Value>
  {
    MapOf(map["type" := Str(name)], Entries(tables, tables(t), fs, |tables(t)|))
  }

  /** The map always holds "type", which keeps the registered name unless a field is keyed "type". */
  lemma CollectedHasType(tables: Tables, t: TypeName, fs: seq<Value>, name: string)
    ensures "type" in Collected(tables, t, fs, name)
    ensures "type" !in EntryKeys(tables, t, fs) ==> Collected(tables, t, fs, name)["type"] == Str(name)
  {
    TypeEntry(map["type" := Str(name)], Entries(tables, tables(t), fs, |tables(t)|), name);
  }

  /** Every value in the map is smaller than the struct it was built from. */
  lemma CollectedBounded(tables: Tables, t: TypeName, fs: seq<Value>, name: string)
    ensures Bounded(Collected(tables, t, fs, name), Size(Struct(t, fs)))
  {
    var es := Entries(tables, tables(t), fs, |tables(t)|);
    EntriesBounded(tables, tables(t), fs, |tables(t)|);
    MapOfBounded(map["type" := Str(name)], es, 2 + FieldsSize(fs));
  }

  /** Every value in `m` is smaller than `bound`. */
  predicate Bounded(m: map<string, Value>, bound: nat)
  {
    forall k :: k in m ==> Size(m[k]) < bound
  }

  /** The initial "type" entry survives unless some entry is keyed "type". */
  lemma TypeEntry(m0: map<string, Value>, es: seq<(string, Value)>, name: string)
    requires m0 == map["type" := Str(name)]
    ensures "type" in MapOf(m0, es)
    ensures "type" !in KeysOf(es) ==> MapOf(m0, es)["type"] == Str(name)
  {
    MapOfKeys(m0, es, "type");
    if "type" !in KeysOf(es) {
      forall j | 0 <= j < |es|
        ensures es[j].0 != "type"
      {
        assert es[j].0 in KeysOf(es);
      }
      MapOfUntouched(m0, es, "type");
    }
  }

  /** Whether `o` is one of the comma-separated options in `opts`. */
  function HasOption(opts: string, o: string): bool
    decreases |opts|
  {
    var j := IndexOf(opts, ',');
    if j == -1 then opts == o else opts[..j] == o || HasOption(opts[j + 1..], o)
  }

  /**
   * The entry `encoding/json` makes for a field of a struct without a custom
   * encoder: keyed by the tag name, or the Go name when the tag gives none;
   * skipped for `-`, or when `omitempty` is among the options and the value
   * is empty.
   */
  function StdEntry(f: Field, fv: Value): seq<(string, Value)>
  {
    match StdKey(f)
    case None => []
    case Some(key) =>
      var tag := JsonTag(f);
      var i := IndexOf(tag, ',');
      var omit := i != -1 && HasOption(tag[i + 1..], "omitempty");
      if omit && IsZero(fv, f.ty) then [] else [(key, fv)]
  }

  /**
   * The key `encoding/json` uses for a field, in both directions: the tag's
   * name, or the Go name when the tag gives none; None for the tag `-`.
   */
  function StdKey(f: Field): Option<string>
  {
    var tag := JsonTag(f);
    if tag == "-" then None
    else
      var i := IndexOf(tag, ',');
      var name := if i == -1 then tag else tag[..i];
      Some(if name == "" then f.name else name)
  }

  function StdEntries(schema: seq<Field>, fs: seq<Value>, n: nat): seq<(string, Value)>
    requires n <= |schema|
  {
    if n == 0 then [] else StdEntries(schema, fs, n - 1) + StdEntry(schema[n - 1], At(schema, fs, n - 1))
  }

  lemma {:induction false} StdEntriesBounded(schema: seq<Field>, fs: seq<Value>, n: nat)
    requires n <= |schema|
    ensures forall k :: 0 <= k < |StdEntries(schema, fs, n)| ==> Size(StdEntries(schema, fs, n)[k].1) < 2 + FieldsSize(fs)
  {
    if n > 0 {
      StdEntriesBounded(schema, fs, n - 1);
      FieldSmaller(schema, fs, n - 1);
    }
  }

  /** The map `encoding/json` encodes a struct without a custom encoder as. */
  function StdCollected(tables: Tables, t: TypeName, fs: seq<Value>): map<string, Value>
  {
    MapOf(map[], StdEntries(tables(t), fs, |tables(t)|))
  }

  lemma StdCollectedBounded(tables: Tables, t: TypeName, fs: seq<Value>)
    ensures Bounded(StdCollected(tables, t, fs), Size(Struct(t, fs)))
  {
    StdEntriesBounded(tables(t), fs, |tables(t)|);
    MapOfBounded(map[], StdEntries(tables(t), fs, |tables(t)|), 2 + FieldsSize(fs));
  }

  /**
   * `json.Marshal` of a value (its dynamic type is its shape; a struct uses
   * its type's codec). The only failure a nested encoding can report is an
   * unregistered type.
   */
  function Encode(tables: Tables, types: map<string, TypeName>, v: Value): (r: Result<Json, MarshalError>)
    ensures r.Failure? ==> r.error == UnregisteredType
    decreases Size(v), 6
  {
    match v
    case Nil => Success(JNull)
    case Str(s) => Success(JString(s))
    case Bool(b) => Success(JBool(b))
    case Int(i) => Success(JInt(i))
    case Dyn(j) => Success(j)
    case StrMap(m) => Success(EncodeStrMap(m))
    case Ptr(x) => Encode(tables, types, x)
    case Slice(items) => EncodeSlice(tables, types, items)
    case Struct(_, _) => EncodeStruct(tables, types, v)
  }

  function EncodeStrMap(m: map<string, string>): (j: Json)
    ensures j.JObject? && j.members.Keys == m.Keys
  {
    JObject(map k | k in m :: JString(m[k]))
  }

  /** A slice encodes as an array of its items' encodings, and fails when any item does. */
  function EncodeSlice(tables: Tables, types: map<string, TypeName>, items: seq<Value>): (r: Result<Json, MarshalError>)
    ensures r.Failure? ==> r.error == UnregisteredType
    ensures r.Success? ==> r.value.JArray? && |r.value.items| == |items|
    decreases Size(Slice(items)), 5
  {
    var rs := seq(|items|, i requires 0 <= i < |items| => ItemSmaller(items, i); Encode(tables, types, items[i]));
    if forall i :: 0 <= i < |rs| ==> rs[i].Success? then
      Success(JArray(seq(|rs|, i requires 0 <= i < |rs| && rs[i].Success? => rs[i].value)))
    else Failure(UnregisteredType)
  }

  /** A struct encodes through its type's codec. */
  function EncodeStruct(tables: Tables, types: map<string, TypeName>, v: Value): (r: Result<Json, MarshalError>)
    requires v.Struct?
    ensures r.Failure? ==> r.error == UnregisteredType
    decreases Size(v), 5
  {
    match CodecOf(v.ty)
    case Smart => SmartMarshal(tables, types, v)
    case Direct(name) => Marshalled(tables, types, v, TStruct(v.ty), name)
    case Plain => EncodePlain(tables, types, v)
    case GridWidth => EncodeGridWidth(tables, types, v)
    case Target => EncodeTarget(tables, types, v)
  }

  /** `encoding/json`'s own encoding of a struct without a `MarshalJSON` method. */
  function EncodePlain(tables: Tables, types: map<string, TypeName>, v: Value): (r: Result<Json, MarshalError>)
    requires v.Struct?
    ensures r.Failure? ==> r.error == UnregisteredType
    decreases Size(v), 4
  {
    EncodeObject(tables, types, StdCollected(tables, v.ty, v.fields), Size(v))
  }

  /** `GridColumnWidth.MarshalJSON`: the stored value itself. */
  function EncodeGridWidth(tables: Tables, types: map<string, TypeName>, v: Value): (r: Result<Json, MarshalError>)
    requires v.Struct?
    ensures r.Failure? ==> r.error == UnregisteredType
    decreases Size(v), 4
  {
    FieldSmaller(GridColumnWidthFields(), v.fields, 0);
    Encode(tables, types, At(GridColumnWidthFields(), v.fields, 0))
  }

  /** `TargetElement.MarshalJSON`: the bare element id when `IsVisible` is nil, else the registry's encoding. */
  function EncodeTarget(tables: Tables, types: map<string, TypeName>, v: Value): (r: Result<Json, MarshalError>)
    requires v.Struct?
    ensures r.Failure? ==> r.error == UnregisteredType
    decreases Size(v), 4
  {
    if At(TargetElementFields(), v.fields, 1) == Nil then
      FieldSmaller(TargetElementFields(), v.fields, 0);
      Encode(tables, types, At(TargetElementFields(), v.fields, 0))
    else SmartMarshal(tables, types, v)
  }

  /**
   * The encodings of a map's values, as one object; fails when any value
   * fails. `bound` is the size of the value the map was built from: every
   * map built by the encoder is `Bounded` by it (`CollectedBounded`,
   * `StdCollectedBounded`), so the guard never fails for them.
   */
  function EncodeObject(tables: Tables, types: map<string, TypeName>, m: map<string, Value>, bound: nat): (r: Result<Json, MarshalError>)
    ensures r.Failure? ==> r.error == UnregisteredType
    ensures r.Success? ==> r.value.JObject? && r.value.members.Keys == m.Keys
    decreases bound, 0
  {
    var rs := map k | k in m :: if Size(m[k]) < bound then Encode(tables, types, m[k]) else Failure(UnregisteredType);
    if forall k :: k in rs ==> rs[k].Success? then
      Success(JObject(map k | k in rs :: rs[k].value))
    else Failure(UnregisteredType)
  }

  /**
   * `SmartMarshalFromJSON(v)` for the struct a `MarshalJSON` method receives:
   * find the type's name in the registry, then `marshalWithType`.
   */
  function SmartMarshal(tables: Tables, types: map<string, TypeName>, v: Value): (r: Result<Json, MarshalError>)
    requires v.Struct?
    ensures r.Failure? ==> r.error == UnregisteredType
    decreases Size(v), 3
  {
    match NameOf(types, v.ty)
    case Some(name) => Marshalled(tables, types, v, TStruct(v.ty), name)
    case None => Failure(UnregisteredType)
  }

  /**
   * What `marshalWithType(v, name)` returns, for a value `v` whose dynamic
   * type is `vty`: pointers are followed, a nil one giving just the "type"
   * key; anything but a struct is an error; a struct gives the object of
   * `Collected`.
   */
  function Marshalled(tables: Tables, types: map<string, TypeName>, v: Value, vty: GoType, name: string): (r: Result<Json, MarshalError>)
    ensures v.Struct? && vty == TStruct(v.ty) && r.Failure? ==> r.error == UnregisteredType
    decreases Size(v), 2
  {
    match vty
    case TPtr(e) =>
      if v == Nil then Success(JObject(map["type" := JString(name)]))
      else if v.Ptr? then Marshalled(tables, types, v.target, e, name)
      else Failure(NotAStruct)
    case TStruct(_) =>
      if v.Struct? then EncodeCollected(tables, types, v, name)
      else Failure(NotAStruct)
    case _ => Failure(NotAStruct)
  }

  /** The object `marshalWithType` encodes a struct value as. */
  function EncodeCollected(tables: Tables, types: map<string, TypeName>, v: Value, name: string): (r: Result<Json, MarshalError>)
    requires v.Struct?
    ensures r.Failure? ==> r.error == UnregisteredType
    decreases Size(v), 1
  {
    EncodeObject(tables, types, Collected(tables, v.ty, v.fields, name), Size(v))
  }

  /** One plain field: `m[name] = fieldValue` unless its tag skips it or `omitempty` applies. */
  method PutEntry(m0: map<string, Value>, f: Field, fv: Value) returns (m: map<string, Value>)
    ensures m == MapOf(m0, Entry(f, fv))
  {
    m := m0;
    var e := Entry(f, fv);
    MapOfOne(m0, e);
    if e != [] {
      m := m[e[0].0 := e[0].1];
    }
  }

  /** The inner loop of `marshalWithType`: the entries of an embedded group's fields, assigned in order. */
  method PutGroup(m0: map<string, Value>, schema: seq<Field>, fs: seq<Value>) returns (m: map<string, Value>)
    ensures m == MapOf(m0, GroupEntries(schema, fs, |schema|))
  {
    m := m0;
    for j := 0 to |schema|
      invariant m == MapOf(m0, GroupEntries(schema, fs, j))
    {
      MapOfAppend(m0, GroupEntries(schema, fs, j), Entry(schema[j], At(schema, fs, j)));
      m := PutEntry(m, schema[j], At(schema, fs, j));
    }
  }

  /** One field of the struct: an embedded group through `PutGroup`, any other field through `PutEntry`. */
  method PutField(tables: Tables, m0: map<string, Value>, f: Field, fv: Value) returns (m: map<string, Value>)
    ensures m == MapOf(m0, FieldEntries(tables, f, fv))
  {
    m := m0;
    if f.embedded {
      var group := GroupOf(fv);
      if group.Some? {
        m := PutGroup(m, tables(group.value.ty), group.value.fields);
      }
    } else {
      m := PutEntry(m, f, fv);
    }
  }

  /** The outer loop of `marshalWithType`: every field's entries, in order. */
  method PutFields(tables: Tables, m0: map<string, Value>, schema: seq<Field>, fs: seq<Value>) returns (m: map<string, Value>)
    ensures m == MapOf(m0, Entries(tables, schema, fs, |schema|))
  {
    m := m0;
    for i := 0 to |schema|
      invariant m == MapOf(m0, Entries(tables, schema, fs, i))
    {
      MapOfAppend(m0, Entries(tables, schema, fs, i), FieldEntries(tables, schema[i], At(schema, fs, i)));
      m := PutField(tables, m, schema[i], At(schema, fs, i));
    }
  }

  /**
   * `marshalWithType`: follow pointers, then build the map (the "type"
   * entry, then each field's entries, embedded groups flattened) and encode it.
   */
  method MarshalWithType(tables: Tables, types: map<string, TypeName>, v: Value, vty: GoType, name: string)
    returns (r: Result<Json, MarshalError>)
    ensures r == Marshalled(tables, types, v, vty, name)
  {
    var val, ty := v, vty;
    while ty.TPtr?
      invariant Marshalled(tables, types, val, ty, name) == Marshalled(tables, types, v, vty, name)
      decreases Size(val)
    {
      if val == Nil {
        return Success(JObject(map["type" := JString(name)]));
      }
      if !val.Ptr? {
        return Failure(NotAStruct);
      }
      val, ty := val.target, ty.elem;
    }
    if !ty.TStruct? || !val.Struct? {
      return Failure(NotAStruct);
    }
    var m := PutFields(tables, map["type" := Str(name)], tables(val.ty), val.fields);
    assert m == Collected(tables, val.ty, val.fields, name);
    r := EncodeObject(tables, types, m, Size(val));
  }

  /** Each member of an encoded object is the encoding of the map's value under that key. */
  lemma EncodeObjectMember(tables: Tables, types: map<string, TypeName>, m: map<string, Value>, bound: nat, k: string)
    requires Bounded(m, bound)
    requires EncodeObject(tables, types, m, bound).Success? && k in m
    ensures Encode(tables, types, m[k]).Success?
    ensures EncodeObject(tables, types, m, bound).value.members[k] == Encode(tables, types, m[k]).value
  {
  }

  /**
   * Whatever the value, a successful `marshalWithType` output is an object
   * holding the "type" key.
   */
  lemma {:induction false} MarshalledHasType(tables: Tables, types: map<string, TypeName>, v: Value, vty: GoType, name: string)
    requires Marshalled(tables, types, v, vty, name).Success?
    ensures Marshalled(tables, types, v, vty, name).value.JObject?
    ensures "type" in Marshalled(tables, types, v, vty, name).value.members
    decreases Size(v)
  {
    if vty.TPtr? && v != Nil {
      MarshalledHasType(tables, types, v.target, vty.elem, name);
    } else if vty.TStruct? && v.Struct? {
      CollectedHasType(tables, v.ty, v.fields, name);
    }
  }

  /** For a struct none of whose fields is keyed "type", the "type" member is `name`. */
  lemma MarshalledTypeValue(tables: Tables, types: map<string, TypeName>, t: TypeName, fs: seq<Value>, name: string)
    requires Marshalled(tables, types, Struct(t, fs), TStruct(t), name).Success?
    requires "type" !in EntryKeys(tables, t, fs)
    ensures var out := Marshalled(tables, types, Struct(t, fs), TStruct(t), name).value;
      out.JObject? && "type" in out.members && out.members["type"] == JString(name)
  {
    CollectedHasType(tables, t, fs, name);
    CollectedBounded(tables, t, fs, name);
    EncodeObjectMember(tables, types, Collected(tables, t, fs, name), Size(Struct(t, fs)), "type");
  }

  /** A nil pointer, or a pointer to a nil pointer, encodes as exactly the "type" member. */
  lemma NilPointerJustType(tables: Tables, types: map<string, TypeName>, v: Value, e: GoType, name: string)
    requires v == Nil || (v == Ptr(Nil) && e.TPtr?)
    ensures Marshalled(tables, types, v, TPtr(e), name) == Success(JObject(map["type" := JString(name)]))
  {
  }

  /** Anything that is not a struct after following pointers is rejected. */
  lemma NonStructRejected(tables: Tables, types: map<string, TypeName>, v: Value, vty: GoType, name: string)
    requires !vty.TPtr? && !(vty.TStruct? && v.Struct?)
    ensures Marshalled(tables, types, v, vty, name) == Failure(NotAStruct)
  {
  }

  /**
   * An embedded, non-nil group is flattened in place: the map after the
   * embedded field is the map before it with each of the group's own
   * entries assigned at the top level, not nested under a key of its own.
   */
  lemma GroupFlattened(tables: Tables, m0: map<string, Value>, schema: seq<Field>, fs: seq<Value>, i: nat)
    requires i < |schema| && schema[i].embedded
    requires GroupOf(At(schema, fs, i)).Some?
    ensures MapOf(m0, Entries(tables, schema, fs, i + 1)) ==
      MapOf(MapOf(m0, Entries(tables, schema, fs, i)), AllGroupEntries(tables, GroupOf(At(schema, fs, i)).value))
  {
    MapOfAppend(m0, Entries(tables, schema, fs, i), FieldEntries(tables, schema[i], At(schema, fs, i)));
  }

  /** A struct whose codec is Smart is encoded by `SmartMarshal`. */
  lemma EncodeSmart(tables: Tables, types: map<string, TypeName>, v: Value)
    requires v.Struct? && CodecOf(v.ty) == Smart
    ensures Encode(tables, types, v) == SmartMarshal(tables, types, v)
  {
    assert Encode(tables, types, v) == EncodeStruct(tables, types, v);
  }

  /** `TargetElement` is encoded by its own `MarshalJSON`. */
  lemma EncodeTargetDispatch(tables: Tables, types: map<string, TypeName>, v: Value)
    requires v.Struct? && v.ty == TargetElement
    ensures Encode(tables, types, v) == EncodeTarget(tables, types, v)
  {
    assert Encode(tables, types, v) == EncodeStruct(tables, types, v);
  }

  /** `GridColumnWidth` is encoded by its own `MarshalJSON`. */
  lemma EncodeGridWidthDispatch(tables: Tables, types: map<string, TypeName>, v: Value)
    requires v.Struct? && v.ty == GridColumnWidth
    ensures Encode(tables, types, v) == EncodeGridWidth(tables, types, v)
  {
    assert Encode(tables, types, v) == EncodeStruct(tables, types, v);
  }

  /**
   * In a canonical registry (one where every name is its type's
   * discriminator, as `init` builds it) a Smart type without a discriminator
   * is held under no name, so it cannot be encoded.
   */
  lemma UnregisteredCannotEncode(tables: Tables, types: map<string, TypeName>, t: TypeName, fs: seq<Value>)
    requires CodecOf(t) == Smart && Discriminator(t) == None && Canonical(types)
    ensures Encode(tables, types, Struct(t, fs)) == Failure(UnregisteredType)
  {
    EncodeSmart(tables, types, Struct(t, fs));
    assert SmartMarshal(tables, types, Struct(t, fs)) == Failure(UnregisteredType);
  }

  /** The types whose encoder goes through the registry but which `init` never registers. */
  function NeverRegistered(): set<TypeName>
  {
    {CaptionSource, MediaSource, CompoundButton, ProgressBar, ProgressRing,
     TableColumnDefinition, TableRow, TableCell, InputChoice, DataQuery,
     Refresh, TokenExchangeResource, Authentication, Metadata, Mention}
  }

  /** Each of those types is encoded by `SmartMarshalFromJSON` and has no discriminator. */
  lemma UnregisteredSmartTypes(t: TypeName)
    requires t in NeverRegistered()
    ensures CodecOf(t) == Smart && Discriminator(t) == None
  {
    match t
    case CaptionSource =>
    case MediaSource =>
    case CompoundButton =>
    case ProgressBar =>
    case ProgressRing =>
    case TableColumnDefinition =>
    case TableRow =>
    case TableCell =>
    case InputChoice =>
    case DataQuery =>
    case Refresh =>
    case TokenExchangeResource =>
    case Authentication =>
    case Metadata =>
    case Mention =>
  }

  /** No type of `NeverRegistered` is held by the registry `init` builds. */
  lemma NeverRegisteredAbsent(t: TypeName, k: string)
    requires t in NeverRegistered() && k in StandardTypes()
    ensures StandardTypes()[k] != t
  {
    UnregisteredSmartTypes(t);
    StandardCanonical();
  }

  /** With the registry `init` builds, none of those types can be encoded. */
  lemma StandardUnregisteredFails(tables: Tables, t: TypeName, fs: seq<Value>)
    requires t in NeverRegistered()
    ensures Encode(tables, StandardTypes(), Struct(t, fs)) == Failure(UnregisteredType)
  {
    UnregisteredSmartTypes(t);
    StandardCanonical();
    UnregisteredCannotEncode(tables, StandardTypes(), t, fs);
  }

  /** A Smart type registered in a canonical registry encodes through the name it is registered under. */
  lemma RegisteredEncodes(tables: Tables, types: map<string, TypeName>, t: TypeName, fs: seq<Value>, name: string)
    requires CodecOf(t) == Smart
    requires Canonical(types) && name in types && types[name] == t
    ensures Encode(tables, types, Struct(t, fs)) == Marshalled(tables, types, Struct(t, fs), TStruct(t), name)
  {
    var v := Struct(t, fs);
    NameOfRegistered(types, t, name);
    EncodeSmart(tables, types, v);
    assert SmartMarshal(tables, types, v) == Marshalled(tables, types, v, TStruct(t), name);
  }

  /** `GridColumnWidth` encodes as its stored value, with no "type" member and no wrapper object. */
  lemma GridWidthEncodesValue(tables: Tables, types: map<string, TypeName>, x: Value)
    ensures Encode(tables, types, Struct(GridColumnWidth, [x])) == Encode(tables, types, x)
  {
    var v := Struct(GridColumnWidth, [x]);
    assert At(GridColumnWidthFields(), [x], 0) == x;
    EncodeGridWidthDispatch(tables, types, v);
    assert EncodeGridWidth(tables, types, v) == Encode(tables, types, x);
  }

  /** A `TargetElement` whose `IsVisible` is nil encodes as the bare string of its element id. */
  lemma TargetEncodesId(tables: Tables, types: map<string, TypeName>, id: string)
    ensures Encode(tables, types, Struct(TargetElement, [Str(id), Nil])) == Success(JString(id))
  {
    var v := Struct(TargetElement, [Str(id), Nil]);
    assert At(TargetElementFields(), v.fields, 0) == Str(id);
    assert At(TargetElementFields(), v.fields, 1) == Nil;
    EncodeTargetDispatch(tables, types, v);
    assert EncodeTarget(tables, types, v) == Encode(tables, types, Str(id));
  }

  /**
   * With `IsVisible` set, `TargetElement`'s encoder goes through the
   * registry, where a canonical registry cannot hold `TargetElement`.
   */
  lemma TargetObjectFormFails(tables: Tables, types: map<string, TypeName>, id: string, b: bool)
    requires Canonical(types)
    ensures Encode(tables, types, Struct(TargetElement, [Str(id), Ptr(Bool(b))])) == Failure(UnregisteredType)
  {
    var v := Struct(TargetElement, [Str(id), Ptr(Bool(b))]);
    assert At(TargetElementFields(), v.fields, 1) != Nil;
    assert NameOf(types, TargetElement) == None;
    EncodeTargetDispatch(tables, types, v);
    assert EncodeTarget(tables, types, v) == SmartMarshal(tables, types, v);
  }

  /** With the registry `init` builds, a `TargetElement` with `IsVisible` set cannot be encoded. */
  lemma StandardTargetObjectFails(tables: Tables, id: string, b: bool)
    ensures Encode(tables, StandardTypes(), Struct(TargetElement, [Str(id), Ptr(Bool(b))])) == Failure(UnregisteredType)
  {
    StandardCanonical();
    TargetObjectFormFails(tables, StandardTypes(), id, b);
  }
}
