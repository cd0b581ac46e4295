/**
 * Decoding: `ValidateType(s)`, the registry-driven `dynamicUnmarshaling`,
 * `unmarshalMessage(s)`, `unmarshalFallback`, the per-kind field decoders and
 * `SmartUnmarshalJSON`, together with the parts of `encoding/json` they lean
 * on (decoding into a fresh value of a Go type) and the two hand-written
 * decoders (GridColumnWidth, TargetElement).
 *
 * A decoder of the source writes into a target it is given; here it returns
 * the target's new value. Where the source keeps a partly written target on
 * an error (`SmartUnmarshalJSON`), the result carries both.
 */
module Unmarshal {
  import opened Wrappers
  import opened Json
  import opened Schema
  import opened Values
  import opened Registry
  import opened Text
  import opened Marshal

  datatype DecodeError =
    | Mismatch                                // encoding/json: the JSON value does not fit the Go type
    | DetectFailed                            // "failed to detect element type"
    | Unknown(name: string)                   // AdaptiveCardErrorUnknown: no type registered under the name
    | Invalid(name: string, expected: string) // AdaptiveCardErrorInvalid: "type" names another type
    | InterfaceTarget                         // ValidateType against an interface type
    | UnregisteredTarget                      // ValidateType: the target type has no registered name
    | NotImplementing(name: string)           // the registered type is not of the requested interface
    | AtIndex(index: nat, cause: DecodeError) // an error at one item of a sequence
    | InField(key: string, cause: DecodeError) // an error decoding one field
    | NotWhole                                // GridColumnWidth: a number with a fraction
    | NotPixels                               // GridColumnWidth: a string not ending in "px"
    | WidthKind                               // GridColumnWidth: neither number nor string
    | FallbackRejected                        // "fallback must be either FallbackOption, Element, or Action"
    | NotAStructTarget                        // SmartUnmarshalJSON into a non-struct
    | Panic                                   // reflect.Value.Set with a value of another type: the source panics
    | Diverges                                // TargetElement.UnmarshalJSON re-enters itself without end
    | Unspecified                             // the source stores a nil interface through reflection

  /** `errors.As(err, &AdaptiveCardErrorUnknown{})`: the error or one it wraps is `Unknown`. */
  predicate IsUnknown(e: DecodeError)
  {
    match e
    case Unknown(_) => true
    case AtIndex(_, c) => IsUnknown(c)
    case InField(_, c) => IsUnknown(c)
    case _ => false
  }

  /** A crash or a non-terminating call of the source, which no caller recovers from. */
  predicate Fatal(e: DecodeError)
  {
    match e
    case Panic => true
    case Diverges => true
    case Unspecified => true
    case AtIndex(_, c) => Fatal(c)
    case InField(_, c) => Fatal(c)
    case _ => false
  }

  /** The state of a target after a decoder ran: its new value, and the error that stopped the decoder, if any. */
  datatype Outcome = Outcome(value: Value, err: Option<DecodeError>)

  /** The fields of a struct target after a prefix of them was decoded. */
  datatype Progress = Progress(fields: seq<Value>, err: Option<DecodeError>)

  /**
   * `getCardType`: decode the payload into a struct with one string field
   * keyed "type". Null, or an object without the key or with a null there,
   * gives ""; any other payload, or a non-string "type", fails.
   */
  function DetectType(j: Json): (r: Result<string, DecodeError>)
    ensures r.Failure? ==> r.error == DetectFailed
  {
    match j
    case JNull => Success("")
    case JObject(ms) =>
      if "type" !in ms then Success("")
      else if ms["type"].JNull? then Success("")
      else if ms["type"].JString? then Success(ms["type"].s)
      else Failure(DetectFailed)
    case _ => Failure(DetectFailed)
  }

  /**
   * `ValidateType`: None when the payload may be decoded as `ty` (a struct or
   * a pointer to one). Detection is tried first; an interface target, and a
   * type the registry does not name, are always rejected; otherwise a
   * non-empty "type" must be the target's registered name.
   */
  function ValidateType(types: map<string, TypeName>, j: Json, ty: GoType): Option<DecodeError>
  {
    match DetectType(j)
    case Failure(e) => Some(e)
    case Success(found) =>
      if ty.TIface? then Some(InterfaceTarget)
      else
        var base := if ty.TPtr? then ty.elem else ty;
        match (if base.TStruct? then NameOf(types, base.name) else None)
        case None => Some(UnregisteredTarget)
        case Some(name) => if found != "" && found != name then Some(Invalid(found, name)) else None
  }

  /** The item type `ValidateTypes` checks against: a slice type's element, any other type itself. */
  function ItemType(ty: GoType): GoType
  {
    if ty.TSlice? then ty.elem else ty
  }

  /** The verdict of `ValidateType` on each item, in order. */
  function Verdicts(types: map<string, TypeName>, items: seq<Json>, ty: GoType): (r: seq<Option<DecodeError>>)
    ensures |r| == |items| && forall i :: 0 <= i < |items| ==> r[i] == ValidateType(types, items[i], ty)
  {
    seq(|items|, i requires 0 <= i < |items| => ValidateType(types, items[i], ty))
  }

  /** The rejections among the first `n` verdicts, each tagged with its index. */
  function Collect(verdicts: seq<Option<DecodeError>>, n: nat): seq<DecodeError>
    requires n <= |verdicts|
  {
    if n == 0 then []
    else
      Collect(verdicts, n - 1) +
      match verdicts[n - 1]
      case Some(e) => [AtIndex(n - 1, e)]
      case None => []
  }

  /** The errors `ValidateTypes` collects over the first `n` items: one per rejected item, tagged with its index. */
  function TypeErrors(types: map<string, TypeName>, items: seq<Json>, ty: GoType, n: nat): seq<DecodeError>
    requires n <= |items|
  {
    Collect(Verdicts(types, items, ty), n)
  }

  /** Go's fresh value of a field table: every field at its zero value, keeping those `fs` already has. */
  function Fill(schema: seq<Field>, fs: seq<Value>): (r: seq<Value>)
    ensures |r| == |schema|
  {
    seq(|schema|, i requires 0 <= i < |schema| => At(schema, fs, i))
  }

  /** The field values of a struct value, none for any other value. */
  function FieldsOf(v: Value): seq<Value>
  {
    if v.Struct? then v.fields else []
  }

  /** Whether a field's tag names one of the object's keys (`hasEmbeddedFields`, for one field). */
  predicate KeyPresent(j: Json, f: Field)
  {
    var key := ParseJsonTag(JsonTag(f));
    key != "" && j.JObject? && key in j.members
  }

  /** `hasEmbeddedFields`: some field of the group is keyed in the object. */
  predicate AnyKeyPresent(j: Json, schema: seq<Field>)
  {
    exists i :: 0 <= i < |schema| && KeyPresent(j, schema[i])
  }

  /** Values of a `map[string]string`: strings, or null, which leaves the element "". */
  predicate StringMembers(ms: map<string, Json>)
  {
    forall k :: k in ms ==> ms[k].JString? || ms[k].JNull?
  }

  function StrEntries(ms: map<string, Json>): map<string, string>
    requires StringMembers(ms)
  {
    map k | k in ms :: if ms[k].JString? then ms[k].s else ""
  }

  /** `TargetElement{}` as hand-written: the element id and a nil `IsVisible`. */
  const ZeroTarget: Value := Struct(TargetElement, [Str(""), Nil])

  /**
   * `GridColumnWidth.UnmarshalJSON`: a number must be whole and is stored as
   * an int; a string must end in "px" and is stored as it is; anything else,
   * null included, is an error.
   */
  function DecodeGridWidth(j: Json): Result<Value, DecodeError>
  {
    match j
    case JInt(i) => Success(Struct(GridColumnWidth, [Int(i)]))
    case JFrac(r) => if r == r.Floor as real then Success(Struct(GridColumnWidth, [Int(r.Floor)])) else Failure(NotWhole)
    case JString(s) => if HasSuffix(s, "px") then Success(Struct(GridColumnWidth, [Str(s)])) else Failure(NotPixels)
    case _ => Failure(WidthKind)
  }

  /**
   * `TargetElement.UnmarshalJSON` on the receiver `held`: a string sets the
   * element id and keeps `IsVisible`; null changes nothing. Any other
   * payload makes the method call itself on the same payload again, without
   * end.
   */
  function DecodeTarget(j: Json, held: Value): Result<Value, DecodeError>
  {
    match j
    case JString(s) => Success(Struct(TargetElement, [Str(s), At(TargetElementFields(), FieldsOf(held), 1)]))
    case JNull => Success(held)
    case _ => Failure(Diverges)
  }

  /**
   * `json.Unmarshal(j, new(ty))`: decoding into a fresh value of a Go type.
   * Null leaves every non-struct at its zero value; a struct is decoded by
   * its type's codec.
   */
  function Decode(tables: Tables, types: map<string, TypeName>, j: Json, ty: GoType): Result<Value, DecodeError>
    decreases j, 8, ty
  {
    if j.JNull? && !ty.TStruct? then Success(ZeroOf(ty))
    else
      match ty
      case TString => if j.JString? then Success(Str(j.s)) else Failure(Mismatch)
      case TBool => if j.JBool? then Success(Bool(j.b)) else Failure(Mismatch)
      case TInt => if j.JInt? then Success(Int(j.i)) else Failure(Mismatch)
      case TMap => if j.JObject? && StringMembers(j.members) then Success(StrMap(StrEntries(j.members))) else Failure(Mismatch)
      case TPtr(e) =>
        (match Decode(tables, types, j, e)
         case Success(v) => Success(Ptr(v))
         case Failure(err) => Failure(err))
      case TSlice(e) =>
        if j.JArray? then
          (match DecodeItems(tables, types, j, e, |j.items|)
           case Success(vs) => Success(Slice(vs))
           case Failure(err) => Failure(err))
        else Failure(Mismatch)
      case TIface(c) => if c.None? then Success(Dyn(j)) else Failure(Mismatch)
      case TStruct(t) => DecodeStruct(tables, types, j, t)
  }

  /** The first `n` items of an array decoded as `ty`, stopping at the first failure. */
  function DecodeItems(tables: Tables, types: map<string, TypeName>, j: Json, ty: GoType, n: nat): Result<seq<Value>, DecodeError>
    requires j.JArray? && n <= |j.items|
    decreases j, 7, n
  {
    if n == 0 then Success([])
    else
      match DecodeItems(tables, types, j, ty, n - 1)
      case Failure(err) => Failure(err)
      case Success(vs) =>
        match Decode(tables, types, j.items[n - 1], ty)
        case Success(v) => Success(vs + [v])
        case Failure(err) => Failure(err)
  }

  /** `unmarshalSlice`'s loop: like `DecodeItems`, but an error names the item's index. */
  function SliceItems(tables: Tables, types: map<string, TypeName>, j: Json, ty: GoType, n: nat): Result<seq<Value>, DecodeError>
    requires j.JArray? && n <= |j.items|
    decreases j, 7, n
  {
    if n == 0 then Success([])
    else
      match SliceItems(tables, types, j, ty, n - 1)
      case Failure(err) => Failure(err)
      case Success(vs) =>
        match Decode(tables, types, j.items[n - 1], ty)
        case Success(v) => Success(vs + [v])
        case Failure(err) => Failure(AtIndex(n - 1, err))
  }

  /** A fresh struct of type `t`, decoded through the type's codec (its `UnmarshalJSON`, or `encoding/json`). */
  function DecodeStruct(tables: Tables, types: map<string, TypeName>, j: Json, t: TypeName): Result<Value, DecodeError>
    decreases j, 6
  {
    match CodecOf(t)
    case Smart => Completed(SmartUnmarshal(tables, types, j, TStruct(t), ZeroStruct(tables, t)))
    case Direct(_) => Completed(SmartUnmarshal(tables, types, j, TStruct(t), ZeroStruct(tables, t)))
    case Plain =>
      if j.JNull? then Success(ZeroStruct(tables, t))
      else if j.JObject? then
        match PlainFields(tables, types, j, tables(t), ZeroStruct(tables, t).fields, |tables(t)|)
        case Success(fs) => Success(Struct(t, fs))
        case Failure(err) => Failure(err)
      else Failure(Mismatch)
    case GridWidth => DecodeGridWidth(j)
    case Target => DecodeTarget(j, ZeroTarget)
  }

  /** A decoder's outcome as seen by a caller that keeps the value only when there was no error. */
  function Completed(o: Outcome): Result<Value, DecodeError>
  {
    if o.err.None? then Success(o.value) else Failure(o.err.value)
  }

  /**
   * `encoding/json` on a struct without a decoder of its own: each of the
   * first `n` fields whose key (`StdKey`) the object holds is decoded from
   * that member. No struct decoded this way embeds a group.
   */
  function PlainFields(tables: Tables, types: map<string, TypeName>, j: Json, schema: seq<Field>, fs: seq<Value>, n: nat): (r: Result<seq<Value>, DecodeError>)
    requires j.JObject? && n <= |schema| == |fs|
    ensures r.Success? ==> |r.value| == |fs|
    decreases j, 5, n
  {
    if n == 0 then Success(fs)
    else
      match PlainFields(tables, types, j, schema, fs, n - 1)
      case Failure(err) => Failure(err)
      case Success(vs) =>
        var key := StdKey(schema[n - 1]);
        if schema[n - 1].embedded || key.None? || key.value !in j.members then Success(vs)
        else
          match Decode(tables, types, j.members[key.value], schema[n - 1].ty)
          case Success(v) => Success(vs[n - 1 := v])
          case Failure(err) => Failure(err)
  }

  /**
   * `SmartUnmarshalJSON(j, target)` for a target of static type `ty` holding
   * `v`: a non-struct target is rejected; so is a payload that is not an
   * object (null reads as the empty object); otherwise the fields are
   * decoded in order, stopping at the first error with the fields decoded so
   * far kept.
   */
  function SmartUnmarshal(tables: Tables, types: map<string, TypeName>, j: Json, ty: GoType, v: Value): Outcome
    decreases j, 5
  {
    if !ty.TStruct? then Outcome(v, Some(NotAStructTarget))
    else if !(j.JObject? || j.JNull?) then Outcome(v, Some(Mismatch))
    else
      var schema := tables(ty.name);
      var p := SmartRun(tables, types, j, schema, Fill(schema, FieldsOf(v)), |schema|, false);
      Outcome(Struct(ty.name, p.fields), p.err)
  }

  /**
   * The field loop of `SmartUnmarshalJSON` (`inGroup` false) and of
   * `unmarshalEmbeddedFields` (`inGroup` true), over the first `n` fields.
   */
  function SmartRun(tables: Tables, types: map<string, TypeName>, j: Json, schema: seq<Field>, fs: seq<Value>, n: nat, inGroup: bool): (r: Progress)
    requires n <= |schema| == |fs|
    ensures |r.fields| == |fs|
    decreases j, if inGroup then 2 else 4, n
  {
    if n == 0 then Progress(fs, None)
    else
      var p := SmartRun(tables, types, j, schema, fs, n - 1, inGroup);
      if p.err.Some? then p
      else
        var s := SmartField(tables, types, j, schema[n - 1], p.fields[n - 1], inGroup);
        Progress(p.fields[n - 1 := s.value], s.err)
  }

  /**
   * `smartUnmarshalSingleField` on a field holding `held`. An embedded
   * pointer group (`smartUnmarshalAnonymousField`) is allocated and decoded
   * only when one of its keys is present; inside a group, a further embedded
   * field is left alone (no group of the package embeds one). Any other
   * field is decoded by its kind when its key is present and left alone
   * otherwise.
   */
  function SmartField(tables: Tables, types: map<string, TypeName>, j: Json, f: Field, held: Value, inGroup: bool): Outcome
    decreases j, if inGroup then 1 else 3
  {
    if f.embedded then
      if inGroup || !f.ty.TPtr? || !f.ty.elem.TStruct? then Outcome(held, None)
      else
        var g := f.ty.elem.name;
        if !AnyKeyPresent(j, tables(g)) then Outcome(held, None)
        else
          var gfs := Fill(tables(g), if held.Ptr? then FieldsOf(held.target) else []);
          var p := SmartRun(tables, types, j, tables(g), gfs, |tables(g)|, true);
          Outcome(Ptr(Struct(g, p.fields)), p.err)
    else
      var key := ParseJsonTag(JsonTag(f));
      if key == "" || !j.JObject? || key !in j.members then Outcome(held, None)
      else
        var raw := j.members[key];
        var r :=
          if f.ty.TSlice? then SliceField(tables, types, raw, key, f.ty.elem)
          else if f.ty.TIface? then InterfaceField(tables, types, raw, key, f.ty, held)
          else if f.ty.TPtr? then PointerField(tables, types, raw, key, f.ty.elem)
          else ScalarField(tables, types, raw, key, f.ty, held);
        match r
        case Success(v) => Outcome(v, None)
        case Failure(e) => Outcome(held, Some(e))
  }

  /**
   * `unmarshalSliceFieldFromRaw` with `unmarshalSliceField`: an array (null
   * reads as the empty one) whose items all pass `ValidateType` is decoded
   * item by item as the element type; otherwise an element type that
   * implements an interface goes through `unmarshalMessages`, whose result
   * can only be stored in a slice of exactly that interface (any other slice
   * type makes `reflect.Value.Set` panic); otherwise item by item again.
   * A payload that is not an array fails in `encoding/json`.
   */
  function SliceField(tables: Tables, types: map<string, TypeName>, j: Json, key: string, e: GoType): Result<Value, DecodeError>
    decreases j, 12
  {
    if j.JNull? then Success(Slice([]))
    else if !j.JArray? then Failure(Mismatch)
    else if TypeErrors(types, j.items, e, |j.items|) == [] then ItemsField(tables, types, j, key, e)
    else
      match FirstImplemented(e)
      case Some(c) =>
        (match Messages(tables, types, j, c, |j.items|)
         case Success(vs) => if e == TIface(Some(c)) then Success(Slice(vs)) else Failure(Panic)
         case Failure(err) => Failure(InField(key, err)))
      case None => ItemsField(tables, types, j, key, e)
  }

  /** `unmarshalSlice` as a field decoder: every item decoded as `e`, an error naming the field. */
  function ItemsField(tables: Tables, types: map<string, TypeName>, j: Json, key: string, e: GoType): Result<Value, DecodeError>
    requires j.JArray?
    decreases j, 11
  {
    match SliceItems(tables, types, j, e, |j.items|)
    case Success(vs) => Success(Slice(vs))
    case Failure(err) => Failure(InField(key, err))
  }

  /**
   * `unmarshalInterfaceFieldFromRaw`: the key "fallback" goes through
   * `unmarshalFallback`, whose nil result (an unknown discriminator
   * swallowed by the Element attempt) cannot be stored; any other interface
   * field through `unmarshalSingleField`.
   */
  function InterfaceField(tables: Tables, types: map<string, TypeName>, j: Json, key: string, ty: GoType, held: Value): Result<Value, DecodeError>
    decreases j, 12
  {
    if key == "fallback" then
      match Fallback(tables, types, j)
      case Success(v) => if v == Nil then Failure(Unspecified) else Success(v)
      case Failure(err) => Failure(InField(key, err))
    else
      match SingleField(tables, types, j, ty, held)
      case Success(v) => Success(v)
      case Failure(err) => Failure(InField(key, err))
  }

  /**
   * `unmarshalPointerFieldFromRaw`: a pointer to an interface is a new
   * pointer to what `unmarshalSingleField` leaves in a nil interface; any
   * other pointer is a new pointer to the decoded pointee.
   */
  function PointerField(tables: Tables, types: map<string, TypeName>, j: Json, key: string, e: GoType): Result<Value, DecodeError>
    decreases j, 12
  {
    if e.TIface? then
      match SingleField(tables, types, j, e, Nil)
      case Success(v) => Success(Ptr(v))
      case Failure(err) => Failure(InField(key, err))
    else
      match Decode(tables, types, j, e)
      case Success(v) => Success(Ptr(v))
      case Failure(err) => Failure(InField(key, err))
  }

  /**
   * The default case of `smartUnmarshalSingleField`: `encoding/json` into the
   * existing field. Null leaves a scalar alone and makes a map nil; an
   * object is merged into an existing map.
   */
  function ScalarField(tables: Tables, types: map<string, TypeName>, j: Json, key: string, ty: GoType, held: Value): Result<Value, DecodeError>
    decreases j, 12
  {
    if j.JNull? then Success(if ty == TMap then Nil else held)
    else
      match Decode(tables, types, j, ty)
      case Failure(err) => Failure(InField(key, err))
      case Success(v) => Success(if ty == TMap && held.StrMap? && v.StrMap? then StrMap(held.entries + v.entries) else v)
  }

  /**
   * `unmarshalSingleField` on a field of type `ty` holding `held`: the
   * concrete path when `ValidateType` accepts; otherwise, for a type that
   * implements an interface, `unmarshalMessage` into a nil interface, the
   * field left alone when that stays nil; otherwise `encoding/json`.
   */
  function SingleField(tables: Tables, types: map<string, TypeName>, j: Json, ty: GoType, held: Value): Result<Value, DecodeError>
    decreases j, 11
  {
    if ValidateType(types, j, ty).None? then Decode(tables, types, j, ty)
    else
      match FirstImplemented(ty)
      case Some(c) =>
        (match MessageInto(tables, types, j, c, Nil)
         case Success(v) => Success(if v == Nil then held else v)
         case Failure(err) => Failure(err))
      case None => Decode(tables, types, j, ty)
  }

  /**
   * `unmarshalFallback`: a JSON string (null reads as "") is a
   * `FallbackOption`; otherwise the payload is tried as an Element, then as
   * an Action, the first success winning. A failure neither attempt
   * recovers from is passed on.
   */
  function Fallback(tables: Tables, types: map<string, TypeName>, j: Json): Result<Value, DecodeError>
    decreases j, 11
  {
    if j.JString? then Success(Str(j.s))
    else if j.JNull? then Success(Str(""))
    else
      match MessageInto(tables, types, j, Element, Nil)
      case Success(v) => Success(v)
      case Failure(e) =>
        if Fatal(e) then Failure(e)
        else
          match MessageInto(tables, types, j, Action, Nil)
          case Success(v) => Success(v)
          case Failure(e2) => if Fatal(e2) then Failure(e2) else Failure(FallbackRejected)
  }

  /** `unmarshalMessage` into a target holding `held`: the decoded value, or `held` when the discriminator is unknown. */
  function MessageInto(tables: Tables, types: map<string, TypeName>, j: Json, c: Category, held: Value): Result<Value, DecodeError>
    decreases j, 10
  {
    match Message(tables, types, j, c)
    case Success(v) => Success(v)
    case Failure(e) => if IsUnknown(e) then Success(held) else Failure(e)
  }

  /**
   * `dynamicUnmarshaling[T]` for the interface `c`: read the discriminator,
   * look it up in the registry, decode a fresh value of the registered type,
   * and hand out a pointer to it if that pointer is a `c`.
   */
  function Message(tables: Tables, types: map<string, TypeName>, j: Json, c: Category): Result<Value, DecodeError>
    decreases j, 9
  {
    match DetectType(j)
    case Failure(e) => Failure(e)
    case Success(name) =>
      if name !in types then Failure(Unknown(name))
      else
        match DecodeStruct(tables, types, j, types[name])
        case Failure(e) => Failure(e)
        case Success(v) =>
          if Implements(TPtr(TStruct(types[name])), c) then Success(Ptr(v)) else Failure(NotImplementing(name))
  }

  /**
   * `unmarshalMessages` over the first `n` items: each item through
   * `dynamicUnmarshaling`, unknown discriminators skipped, any other error
   * stopping the loop with the item's index.
   */
  function Messages(tables: Tables, types: map<string, TypeName>, j: Json, c: Category, n: nat): Result<seq<Value>, DecodeError>
    requires j.JArray? && n <= |j.items|
    decreases j, 7, n
  {
    if n == 0 then Success([])
    else
      match Messages(tables, types, j, c, n - 1)
      case Failure(e) => Failure(e)
      case Success(vs) =>
        match Message(tables, types, j.items[n - 1], c)
        case Success(v) => Success(vs + [v])
        case Failure(e) => if IsUnknown(e) then Success(vs) else Failure(AtIndex(n - 1, e))
  }

  // ---------------------------------------------------------------------
  // ValidateType(s)

  /** A registered target with a readable payload: rejected exactly when "type" is non-empty and names another type. */
  lemma ValidateTypeMismatch(types: map<string, TypeName>, j: Json, ty: GoType, name: string, found: string)
    requires ty.TStruct? || (ty.TPtr? && ty.elem.TStruct?)
    requires Canonical(types) && name in types && types[name] == (if ty.TPtr? then ty.elem.name else ty.name)
    requires DetectType(j) == Success(found)
    ensures ValidateType(types, j, ty).None? <==> found == "" || found == name
    ensures ValidateType(types, j, ty).Some? ==> ValidateType(types, j, ty) == Some(Invalid(found, name))
  {
    NameOfRegistered(types, if ty.TPtr? then ty.elem.name else ty.name, name);
  }

  /** A payload with no "type" at all is accepted for any registered target. */
  lemma MissingTypeAccepted(types: map<string, TypeName>, ms: map<string, Json>, t: TypeName)
    requires "type" !in ms && NameOf(types, t).Some?
    ensures ValidateType(types, JObject(ms), TStruct(t)) == None
    ensures ValidateType(types, JObject(ms), TPtr(TStruct(t))) == None
  {
  }

  /** An interface target is always rejected, whatever the payload. */
  lemma InterfaceRejected(types: map<string, TypeName>, j: Json, c: Option<Category>)
    ensures ValidateType(types, j, TIface(c)).Some?
  {
  }

  /** A struct target the registry does not hold is always rejected, whatever the payload. */
  lemma UnregisteredRejected(types: map<string, TypeName>, j: Json, t: TypeName)
    requires Canonical(types) && forall k :: k in types ==> types[k] != t
    ensures ValidateType(types, j, TStruct(t)).Some? && ValidateType(types, j, TPtr(TStruct(t))).Some?
  {
  }

  /** `ValidateTypes` reports nothing exactly when every item passes `ValidateType`. */
  lemma TypeErrorsNone(types: map<string, TypeName>, items: seq<Json>, ty: GoType, n: nat)
    requires n <= |items|
    ensures TypeErrors(types, items, ty, n) == [] <==> forall i :: 0 <= i < n ==> ValidateType(types, items[i], ty).None?
  {
    CollectNone(Verdicts(types, items, ty), n);
  }

  /** Each reported error is the rejection of the item at its index, and every rejected item is reported. */
  lemma TypeErrorsIndexed(types: map<string, TypeName>, items: seq<Json>, ty: GoType, n: nat)
    requires n <= |items|
    ensures forall e :: e in TypeErrors(types, items, ty, n) ==>
      e.AtIndex? && e.index < n && ValidateType(types, items[e.index], ty) == Some(e.cause)
    ensures forall i :: 0 <= i < n && ValidateType(types, items[i], ty).Some? ==>
      AtIndex(i, ValidateType(types, items[i], ty).value) in TypeErrors(types, items, ty, n)
  {
    CollectIndexed(Verdicts(types, items, ty), n);
  }

  lemma {:induction false} CollectNone(verdicts: seq<Option<DecodeError>>, n: nat)
    requires n <= |verdicts|
    ensures Collect(verdicts, n) == [] <==> forall i :: 0 <= i < n ==> verdicts[i].None?
  {
    if n > 0 {
      var m: nat := n - 1;
      CollectNone(verdicts, m);
    }
  }

  lemma {:induction false} CollectIndexed(verdicts: seq<Option<DecodeError>>, n: nat)
    requires n <= |verdicts|
    ensures forall e :: e in Collect(verdicts, n) ==> e.AtIndex? && e.index < n && verdicts[e.index] == Some(e.cause)
    ensures forall i :: 0 <= i < n && verdicts[i].Some? ==> AtIndex(i, verdicts[i].value) in Collect(verdicts, n)
  {
    if n > 0 {
      var m: nat := n - 1;
      CollectIndexed(verdicts, m);
    }
  }

  /** `ValidateTypes`: check every item against the slice's element type, collecting one error per rejected item. */
  method ValidateTypes(types: map<string, TypeName>, items: seq<Json>, sourceType: GoType) returns (errs: seq<DecodeError>)
    ensures errs == TypeErrors(types, items, ItemType(sourceType), |items|)
  {
    var ty := if sourceType.TSlice? then sourceType.elem else sourceType;
    errs := [];
    for i := 0 to |items|
      invariant errs == TypeErrors(types, items, ty, i)
    {
      var e := ValidateType(types, items[i], ty);
      if e.Some? {
        errs := errs + [AtIndex(i, e.value)];
      }
    }
  }

  // ---------------------------------------------------------------------
  // unmarshalMessage(s) and unmarshalFallback

  /** An item `unmarshalMessages` gets past: decoded, or with an unknown discriminator. */
  predicate Recoverable(tables: Tables, types: map<string, TypeName>, item: Json, c: Category)
  {
    Message(tables, types, item, c).Success? || IsUnknown(Message(tables, types, item, c).error)
  }

  /** The reference reading of a filter: the decoded items among the first `n`, in their order. */
  function Survivors(tables: Tables, types: map<string, TypeName>, items: seq<Json>, c: Category, n: nat): seq<Value>
    requires n <= |items|
  {
    if n == 0 then []
    else
      var r := Message(tables, types, items[n - 1], c);
      Survivors(tables, types, items, c, n - 1) + (if r.Success? then [r.value] else [])
  }

  lemma {:induction false} SurvivorsShorter(tables: Tables, types: map<string, TypeName>, items: seq<Json>, c: Category, n: nat)
    requires n <= |items|
    ensures |Survivors(tables, types, items, c, n)| <= n
  {
    if n > 0 {
      SurvivorsShorter(tables, types, items, c, n - 1);
    }
  }

  /**
   * `unmarshalMessages` succeeds exactly when every item is decoded or
   * unknown, and then returns the decoded items in order, so never more
   * items than it was given.
   */
  lemma {:induction false} MessagesFilter(tables: Tables, types: map<string, TypeName>, items: seq<Json>, c: Category, n: nat)
    requires n <= |items|
    ensures var r := Messages(tables, types, JArray(items), c, n);
      && (r.Success? <==> forall i :: 0 <= i < n ==> Recoverable(tables, types, items[i], c))
      && (r.Success? ==> r.value == Survivors(tables, types, items, c, n) && |r.value| <= n)
  {
    SurvivorsShorter(tables, types, items, c, n);
    if n > 0 {
      MessagesFilter(tables, types, items, c, n - 1);
    }
  }

  /** A failing `unmarshalMessages` names the first item that is neither decoded nor unknown, with that item's error. */
  lemma {:induction false} MessagesAbort(tables: Tables, types: map<string, TypeName>, items: seq<Json>, c: Category, n: nat)
    requires n <= |items|
    requires Messages(tables, types, JArray(items), c, n).Failure?
    ensures exists i :: (0 <= i < n && !Recoverable(tables, types, items[i], c)
      && Messages(tables, types, JArray(items), c, n).error == AtIndex(i, Message(tables, types, items[i], c).error)
      && forall k :: 0 <= k < i ==> Recoverable(tables, types, items[k], c))
  {
    var prev := Messages(tables, types, JArray(items), c, n - 1);
    if prev.Failure? {
      MessagesAbort(tables, types, items, c, n - 1);
    } else {
      MessagesFilter(tables, types, items, c, n - 1);
      assert !Recoverable(tables, types, items[n - 1], c);
    }
  }

  /** Once `unmarshalMessages` has failed, the later items do not change its result. */
  lemma {:induction false} MessagesStop(tables: Tables, types: map<string, TypeName>, j: Json, c: Category, n: nat, m: nat)
    requires j.JArray? && n <= m <= |j.items|
    requires Messages(tables, types, j, c, n).Failure?
    ensures Messages(tables, types, j, c, m) == Messages(tables, types, j, c, n)
  {
    if n < m {
      MessagesStop(tables, types, j, c, n, m - 1);
    }
  }

  /** Once `unmarshalSlice` has failed, the later items do not change its result. */
  lemma {:induction false} SliceItemsStop(tables: Tables, types: map<string, TypeName>, j: Json, ty: GoType, n: nat, m: nat)
    requires j.JArray? && n <= m <= |j.items|
    requires SliceItems(tables, types, j, ty, n).Failure?
    ensures SliceItems(tables, types, j, ty, m) == SliceItems(tables, types, j, ty, n)
  {
    if n < m {
      SliceItemsStop(tables, types, j, ty, n, m - 1);
    }
  }

  /**
   * `unmarshalSlice` over the first `n` items succeeds exactly when every one
   * of them decodes as the element type, and then holds item `k`'s value at
   * index `k`.
   */
  lemma {:induction false} SliceItemsAll(tables: Tables, types: map<string, TypeName>, j: Json, ty: GoType, n: nat)
    requires j.JArray? && n <= |j.items|
    ensures SliceItems(tables, types, j, ty, n).Success? <==> forall k :: 0 <= k < n ==> Decode(tables, types, j.items[k], ty).Success?
    ensures SliceItems(tables, types, j, ty, n).Success? ==>
      |SliceItems(tables, types, j, ty, n).value| == n
      && forall k :: 0 <= k < n ==> SliceItems(tables, types, j, ty, n).value[k] == Decode(tables, types, j.items[k], ty).value
  {
    if n > 0 {
      SliceItemsAll(tables, types, j, ty, n - 1);
      if SliceItems(tables, types, j, ty, n - 1).Failure? {
        var k :| 0 <= k < n - 1 && !Decode(tables, types, j.items[k], ty).Success?;
        assert !Decode(tables, types, j.items[k], ty).Success?;
      }
    }
  }

  /**
   * A failure of `unmarshalSlice` is the first item that does not decode,
   * with that item's index and error.
   */
  lemma {:induction false} SliceItemsAbort(tables: Tables, types: map<string, TypeName>, j: Json, ty: GoType, n: nat)
    requires j.JArray? && n <= |j.items|
    requires SliceItems(tables, types, j, ty, n).Failure?
    ensures exists k ::
      && 0 <= k < n && Decode(tables, types, j.items[k], ty).Failure?
      && SliceItems(tables, types, j, ty, n).error == AtIndex(k, Decode(tables, types, j.items[k], ty).error)
      && SliceItems(tables, types, j, ty, k).Success?
  {
    var m: nat := n - 1;
    if SliceItems(tables, types, j, ty, m).Failure? {
      SliceItemsAbort(tables, types, j, ty, m);
      var k :|
        && 0 <= k < m && Decode(tables, types, j.items[k], ty).Failure?
        && SliceItems(tables, types, j, ty, m).error == AtIndex(k, Decode(tables, types, j.items[k], ty).error)
        && SliceItems(tables, types, j, ty, k).Success?;
      assert 0 <= k < n;
    } else {
      assert Decode(tables, types, j.items[m], ty).Failure?;
    }
  }

  /** `unmarshalSlice`: decode each item as the element type, stopping at the first error with its index. */
  method UnmarshalSlice(tables: Tables, types: map<string, TypeName>, payload: seq<Json>, ty: GoType)
    returns (r: Result<seq<Value>, DecodeError>)
    ensures r == SliceItems(tables, types, JArray(payload), ty, |payload|)
  {
    var slice := [];
    for i := 0 to |payload|
      invariant SliceItems(tables, types, JArray(payload), ty, i) == Success(slice)
    {
      var elem := Decode(tables, types, payload[i], ty);
      if elem.Failure? {
        SliceItemsStop(tables, types, JArray(payload), ty, i + 1, |payload|);
        return Failure(AtIndex(i, elem.error));
      }
      slice := slice + [elem.value];
    }
    return Success(slice);
  }

  /**
   * The scan of `sliceUnmarshalers` (or `singleUnmarshalers`, in the same
   * order): the first entry whose interface the type implements.
   */
  method FindUnmarshaler(ty: GoType) returns (r: Option<Category>)
    ensures r == FirstImplemented(ty)
  {
    for i := 0 to |CategoryOrder|
      invariant forall k :: 0 <= k < i ==> !Implements(ty, CategoryOrder[k])
    {
      if Implements(ty, CategoryOrder[i]) {
        FirstInOrder(ty, i);
        return Some(CategoryOrder[i]);
      }
    }
    NoneInOrder(ty);
    return None;
  }

  /** `unmarshalMessages`: decode each item, skip the unknown ones, stop at any other error. */
  method UnmarshalMessages(tables: Tables, types: map<string, TypeName>, payload: seq<Json>, c: Category)
    returns (r: Result<seq<Value>, DecodeError>)
    ensures r == Messages(tables, types, JArray(payload), c, |payload|)
  {
    var result := [];
    for i := 0 to |payload|
      invariant Messages(tables, types, JArray(payload), c, i) == Success(result)
    {
      var item := Message(tables, types, payload[i], c);
      if item.Failure? {
        if !IsUnknown(item.error) {
          MessagesStop(tables, types, JArray(payload), c, i + 1, |payload|);
          return Failure(AtIndex(i, item.error));
        }
      } else {
        result := result + [item.value];
      }
    }
    return Success(result);
  }

  /** `unmarshalMessage` leaves its target as it was when the discriminator is unknown. */
  lemma MessageUnknownUntouched(tables: Tables, types: map<string, TypeName>, j: Json, c: Category, held: Value)
    requires DetectType(j).Success? && DetectType(j).value !in types
    ensures Message(tables, types, j, c) == Failure(Unknown(DetectType(j).value))
    ensures MessageInto(tables, types, j, c, held) == Success(held)
  {
  }

  /** No type implements `ActionData`, so a message never decodes as one and a slice of them keeps nothing. */
  lemma {:induction false} ActionDataNeverDecodes(tables: Tables, types: map<string, TypeName>, items: seq<Json>, n: nat)
    requires n <= |items|
    ensures forall i :: 0 <= i < n ==> Message(tables, types, items[i], ActionData).Failure?
    ensures Messages(tables, types, JArray(items), ActionData, n).Success? ==>
      Messages(tables, types, JArray(items), ActionData, n).value == []
  {
    NoActionData();
    if n > 0 {
      ActionDataNeverDecodes(tables, types, items, n - 1);
    }
  }

  lemma NoActionData()
    ensures forall t: TypeName :: !Implements(TPtr(TStruct(t)), ActionData)
  {
    forall t: TypeName
      ensures Marker(t) != Some(ActionData)
    {
    }
  }

  /** A JSON string is a `FallbackOption`, never tried as an Element or an Action. */
  lemma FallbackString(tables: Tables, types: map<string, TypeName>, s: string)
    ensures Fallback(tables, types, JString(s)) == Success(Str(s))
  {
  }

  /** A payload that decodes as an Element is the Element, whatever it would give as an Action. */
  lemma FallbackElementFirst(tables: Tables, types: map<string, TypeName>, j: Json)
    requires !j.JString? && !j.JNull?
    requires Message(tables, types, j, Element).Success?
    ensures Fallback(tables, types, j) == Message(tables, types, j, Element)
  {
  }

  /** A payload that fails as an Element (for a reason other than an unknown discriminator) is tried as an Action. */
  lemma FallbackThenAction(tables: Tables, types: map<string, TypeName>, j: Json)
    requires !j.JString? && !j.JNull?
    requires Message(tables, types, j, Element).Failure?
    requires !IsUnknown(Message(tables, types, j, Element).error) && !Fatal(Message(tables, types, j, Element).error)
    ensures Message(tables, types, j, Action).Success? ==> Fallback(tables, types, j) == Message(tables, types, j, Action)
    ensures Message(tables, types, j, Action).Failure? && !Fatal(Message(tables, types, j, Action).error) ==>
      Fallback(tables, types, j) == Failure(FallbackRejected)
  {
    assert MessageInto(tables, types, j, Element, Nil) == Message(tables, types, j, Element);
  }

  /** `"Input.Rating"` names a registered type that is not an Element. */
  lemma InputRatingNotAnElement(tables: Tables, types: map<string, TypeName>, ms: map<string, Json>)
    requires "Input.Rating" in types && types["Input.Rating"] == InputRating && tables(InputRating) == []
    requires "type" in ms && ms["type"] == JString("Input.Rating")
    ensures Message(tables, types, JObject(ms), Element) == Failure(NotImplementing("Input.Rating"))
  {
    assert DetectType(JObject(ms)) == Success("Input.Rating");
    EmptyStructDecodes(tables, types, ms, InputRating);
    assert Marker(InputRating) == None;
  }

  /** In a sequence of Elements an Input.Rating is an error that stops the decoding, not an item skipped. */
  lemma InputRatingStopsElements(tables: Tables, types: map<string, TypeName>, ms: map<string, Json>)
    requires "Input.Rating" in types && types["Input.Rating"] == InputRating && tables(InputRating) == []
    requires "type" in ms && ms["type"] == JString("Input.Rating")
    ensures Messages(tables, types, JArray([JObject(ms)]), Element, 1) == Failure(AtIndex(0, NotImplementing("Input.Rating")))
  {
    InputRatingNotAnElement(tables, types, ms);
    assert JArray([JObject(ms)]).items[0] == JObject(ms);
    assert Messages(tables, types, JArray([JObject(ms)]), Element, 0) == Success([]);
  }

  /** A Smart type without fields decodes from any object as its empty value. */
  lemma EmptyStructDecodes(tables: Tables, types: map<string, TypeName>, ms: map<string, Json>, t: TypeName)
    requires CodecOf(t) == Smart && tables(t) == []
    ensures DecodeStruct(tables, types, JObject(ms), t) == Success(Struct(t, []))
  {
    assert SmartRun(tables, types, JObject(ms), [], [], 0, false) == Progress([], None);
  }

  /** The registry `init` builds holds "Input.Rating", and for `InputRating`. */
  lemma StandardInputRating()
    ensures "Input.Rating" in StandardTypes() && StandardTypes()["Input.Rating"] == InputRating
  {
    assert Registration(19).0 == "Input.Rating";
    StandardKeys("Input.Rating");
    StandardCanonical();
    DiscriminatorInputRating(StandardTypes()["Input.Rating"]);
  }

  /**
   * With the package's own tables and registry, an Element sequence holding
   * an `Input.Rating` fails at that item: it is registered, but not an
   * Element, and it is not skipped as an unknown type would be.
   */
  lemma StandardInputRatingStops()
    ensures Messages(Fields, StandardTypes(), JArray([JObject(map["type" := JString("Input.Rating")])]), Element, 1)
      == Failure(AtIndex(0, NotImplementing("Input.Rating")))
  {
    StandardInputRating();
    FieldsInputRatingStops(StandardTypes());
  }

  /** With the package's own tables, in any registry binding "Input.Rating" to `InputRating`. */
  lemma FieldsInputRatingStops(types: map<string, TypeName>)
    requires "Input.Rating" in types && types["Input.Rating"] == InputRating
    ensures Messages(Fields, types, JArray([JObject(map["type" := JString("Input.Rating")])]), Element, 1)
      == Failure(AtIndex(0, NotImplementing("Input.Rating")))
  {
    InputRatingTable();
    InputRatingStopsElements(Fields, types, map["type" := JString("Input.Rating")]);
  }

  // ---------------------------------------------------------------------
  // SmartUnmarshalJSON

  /** A Go pointer `*T` the decoder writes through. */
  class Ref {
    var value: Value

    constructor(v: Value)
      ensures value == v
    {
      value := v;
    }
  }

  /** `hasEmbeddedFields`: scan the group's fields for one whose key the object holds. */
  method HasEmbeddedFields(j: Json, schema: seq<Field>) returns (b: bool)
    ensures b == AnyKeyPresent(j, schema)
  {
    for i := 0 to |schema|
      invariant forall k :: 0 <= k < i ==> !KeyPresent(j, schema[k])
    {
      var name := ParseJsonTag(JsonTag(schema[i]));
      if name != "" && j.JObject? && name in j.members {
        return true;
      }
    }
    return false;
  }

  /** `smartUnmarshalSingleField`, with the embedded group's field loop run by `DecodeFields`. */
  method DecodeField(tables: Tables, types: map<string, TypeName>, j: Json, f: Field, held: Value, inGroup: bool)
    returns (s: Outcome)
    ensures s == SmartField(tables, types, j, f, held, inGroup)
    decreases if inGroup then 0 else 2
  {
    if f.embedded && !inGroup && f.ty.TPtr? && f.ty.elem.TStruct? {
      var g := f.ty.elem.name;
      var present := HasEmbeddedFields(j, tables(g));
      GroupFieldSteps(tables, types, j, f, held);
      if !present {
        return Outcome(held, None);
      }
      var gfs := Fill(tables(g), if held.Ptr? then FieldsOf(held.target) else []);
      var fs, err := DecodeFields(tables, types, j, tables(g), gfs, true);
      return Outcome(Ptr(Struct(g, fs)), err);
    }
    s := SmartField(tables, types, j, f, held, inGroup);
  }

  /** The two steps of `smartUnmarshalAnonymousField` on an embedded pointer group. */
  lemma GroupFieldSteps(tables: Tables, types: map<string, TypeName>, j: Json, f: Field, held: Value)
    requires f.embedded && f.ty.TPtr? && f.ty.elem.TStruct?
    ensures var g := f.ty.elem.name;
      var gfs := Fill(tables(g), if held.Ptr? then FieldsOf(held.target) else []);
      var p := SmartRun(tables, types, j, tables(g), gfs, |tables(g)|, true);
      SmartField(tables, types, j, f, held, false) ==
        if AnyKeyPresent(j, tables(g)) then Outcome(Ptr(Struct(g, p.fields)), p.err) else Outcome(held, None)
  {
  }

  /** The field loop of `SmartUnmarshalJSON` and `unmarshalEmbeddedFields`: field by field, stopping at the first error. */
  method DecodeFields(tables: Tables, types: map<string, TypeName>, j: Json, schema: seq<Field>, fs0: seq<Value>, inGroup: bool)
    returns (fs: seq<Value>, err: Option<DecodeError>)
    requires |fs0| == |schema|
    ensures Progress(fs, err) == SmartRun(tables, types, j, schema, fs0, |schema|, inGroup)
    decreases if inGroup then 1 else 3
  {
    fs := fs0;
    for i := 0 to |schema|
      invariant Progress(fs, None) == SmartRun(tables, types, j, schema, fs0, i, inGroup)
    {
      var s := DecodeField(tables, types, j, schema[i], fs[i], inGroup);
      fs := fs[i := s.value];
      if s.err.Some? {
        SmartRunStops(tables, types, j, schema, fs0, i + 1, |schema|, inGroup);
        return fs, s.err;
      }
    }
    err := None;
  }

  /**
   * `SmartUnmarshalJSON(data, target)`: a struct target is decoded field by
   * field in place; a non-struct target or a payload that is not an object
   * (or null) is rejected before any field is written.
   */
  method SmartUnmarshalJSON(tables: Tables, types: map<string, TypeName>, data: Json, ty: GoType, target: Ref)
    returns (err: Option<DecodeError>)
    modifies target
    ensures Outcome(target.value, err) == SmartUnmarshal(tables, types, data, ty, old(target.value))
  {
    if !ty.TStruct? {
      return Some(NotAStructTarget);
    }
    if !(data.JObject? || data.JNull?) {
      return Some(Mismatch);
    }
    var schema := tables(ty.name);
    var fs;
    fs, err := DecodeFields(tables, types, data, schema, Fill(schema, FieldsOf(target.value)), false);
    target.value := Struct(ty.name, fs);
  }

  /** Once a field has failed, the remaining fields are not decoded. */
  lemma {:induction false} SmartRunStops(tables: Tables, types: map<string, TypeName>, j: Json, schema: seq<Field>, fs: seq<Value>, n: nat, m: nat, inGroup: bool)
    requires n <= m <= |schema| == |fs|
    requires SmartRun(tables, types, j, schema, fs, n, inGroup).err.Some?
    ensures SmartRun(tables, types, j, schema, fs, m, inGroup) == SmartRun(tables, types, j, schema, fs, n, inGroup)
  {
    if n < m {
      SmartRunStops(tables, types, j, schema, fs, n, m - 1, inGroup);
    }
  }

  /** A field the payload says nothing about: its key is absent, or it is an embedded group none of whose keys is present. */
  predicate Untouched(tables: Tables, j: Json, f: Field, inGroup: bool)
  {
    if f.embedded then inGroup || !f.ty.TPtr? || !f.ty.elem.TStruct? || !AnyKeyPresent(j, tables(f.ty.elem.name))
    else !KeyPresent(j, f)
  }

  lemma FieldUntouched(tables: Tables, types: map<string, TypeName>, j: Json, f: Field, held: Value, inGroup: bool)
    requires Untouched(tables, j, f, inGroup)
    ensures SmartField(tables, types, j, f, held, inGroup) == Outcome(held, None)
  {
  }

  /** The field loop keeps the value of every field the payload says nothing about. */
  lemma {:induction false} RunKeepsUntouched(tables: Tables, types: map<string, TypeName>, j: Json, schema: seq<Field>, fs: seq<Value>, n: nat, inGroup: bool, i: nat)
    requires n <= |schema| == |fs| && i < |schema|
    requires Untouched(tables, j, schema[i], inGroup)
    ensures SmartRun(tables, types, j, schema, fs, n, inGroup).fields[i] == fs[i]
  {
    if n > 0 {
      RunKeepsUntouched(tables, types, j, schema, fs, n - 1, inGroup, i);
      var p := SmartRun(tables, types, j, schema, fs, n - 1, inGroup);
      if p.err.None? && i == n - 1 {
        FieldUntouched(tables, types, j, schema[i], p.fields[i], inGroup);
      }
    }
  }

  /** When the payload says nothing about any field, the field loop changes nothing and cannot fail. */
  lemma {:induction false} RunAllUntouched(tables: Tables, types: map<string, TypeName>, j: Json, schema: seq<Field>, fs: seq<Value>, n: nat, inGroup: bool)
    requires n <= |schema| == |fs|
    requires forall i :: 0 <= i < n ==> Untouched(tables, j, schema[i], inGroup)
    ensures SmartRun(tables, types, j, schema, fs, n, inGroup) == Progress(fs, None)
  {
    if n > 0 {
      RunAllUntouched(tables, types, j, schema, fs, n - 1, inGroup);
      FieldUntouched(tables, types, j, schema[n - 1], fs[n - 1], inGroup);
      assert fs[n - 1 := fs[n - 1]] == fs;
    }
  }

  /** `SmartUnmarshalJSON` leaves every field whose key is absent as it was. */
  lemma AbsentFieldsKept(tables: Tables, types: map<string, TypeName>, j: Json, t: TypeName, v: Value, i: nat)
    requires j.JObject? || j.JNull?
    requires i < |tables(t)| && Untouched(tables, j, tables(t)[i], false)
    ensures var r := SmartUnmarshal(tables, types, j, TStruct(t), v);
      r.value.Struct? && r.value.ty == t && |r.value.fields| == |tables(t)| && r.value.fields[i] == At(tables(t), FieldsOf(v), i)
  {
    var schema := tables(t);
    RunKeepsUntouched(tables, types, j, schema, Fill(schema, FieldsOf(v)), |schema|, false, i);
  }

  /** `SmartUnmarshalJSON` of `null` leaves the target as it was and reports nothing. */
  lemma NullKeepsTarget(tables: Tables, types: map<string, TypeName>, t: TypeName, fs: seq<Value>)
    requires |fs| == |tables(t)|
    ensures SmartUnmarshal(tables, types, JNull, TStruct(t), Struct(t, fs)) == Outcome(Struct(t, fs), None)
  {
    var schema := tables(t);
    assert Fill(schema, fs) == fs;
    RunAllUntouched(tables, types, JNull, schema, fs, |schema|, false);
  }

  /** A target that is not a struct, or a payload that is neither an object nor null, is rejected and nothing is written. */
  lemma SmartUnmarshalRejects(tables: Tables, types: map<string, TypeName>, j: Json, ty: GoType, v: Value)
    ensures !ty.TStruct? ==> SmartUnmarshal(tables, types, j, ty, v) == Outcome(v, Some(NotAStructTarget))
    ensures ty.TStruct? && !(j.JObject? || j.JNull?) ==> SmartUnmarshal(tables, types, j, ty, v) == Outcome(v, Some(Mismatch))
  {
  }

  /**
   * `smartUnmarshalAnonymousField`: an embedded pointer group that is nil
   * stays nil exactly when none of its keys is present, and is otherwise
   * allocated as a value of the group's type.
   */
  lemma GroupAllocatedIffPresent(tables: Tables, types: map<string, TypeName>, j: Json, f: Field)
    requires f.embedded && f.ty.TPtr? && f.ty.elem.TStruct?
    ensures var s := SmartField(tables, types, j, f, Nil, false);
      && (s.value != Nil <==> AnyKeyPresent(j, tables(f.ty.elem.name)))
      && (s.value != Nil ==>
            s.value.Ptr? && s.value.target.Struct? && s.value.target.ty == f.ty.elem.name
            && |s.value.target.fields| == |tables(f.ty.elem.name)|)
  {
  }

  /** Each field of an allocated group that the payload says nothing about is at its zero value. */
  lemma GroupFieldsStartZero(tables: Tables, types: map<string, TypeName>, j: Json, f: Field, i: nat)
    requires f.embedded && f.ty.TPtr? && f.ty.elem.TStruct? && AnyKeyPresent(j, tables(f.ty.elem.name))
    requires i < |tables(f.ty.elem.name)| && Untouched(tables, j, tables(f.ty.elem.name)[i], true)
    ensures SmartField(tables, types, j, f, Nil, false).value.target.fields[i] == ZeroOf(tables(f.ty.elem.name)[i].ty)
  {
    var schema := tables(f.ty.elem.name);
    RunKeepsUntouched(tables, types, j, schema, Fill(schema, []), |schema|, true, i);
  }

  // ---------------------------------------------------------------------
  // GridColumnWidth and TargetElement

  /** `GridColumnWidth.UnmarshalJSON`: the receiver is written only when the payload is accepted. */
  method UnmarshalGridColumnWidth(j: Json, w: Ref) returns (err: Option<DecodeError>)
    modifies w
    ensures match DecodeGridWidth(j)
      case Success(v) => w.value == v && err.None?
      case Failure(e) => w.value == old(w.value) && err == Some(e)
  {
    match j
    case JInt(i) =>
      w.value := Struct(GridColumnWidth, [Int(i)]);
      return None;
    case JFrac(r) =>
      if r != r.Floor as real {
        return Some(NotWhole);
      }
      w.value := Struct(GridColumnWidth, [Int(r.Floor)]);
      return None;
    case JString(s) =>
      if !HasSuffix(s, "px") {
        return Some(NotPixels);
      }
      w.value := Struct(GridColumnWidth, [Str(s)]);
      return None;
    case _ =>
      return Some(WidthKind);
  }

  /**
   * What a `GridColumnWidth` accepts: an integer; a number with no
   * fractional part, kept as that integer; a string ending in "px", kept as
   * it is. A fraction, another string, or any other kind is an error.
   */
  lemma GridWidthDecodeCases(j: Json)
    ensures j.JInt? ==> DecodeGridWidth(j) == Success(Struct(GridColumnWidth, [Int(j.i)]))
    ensures j.JFrac? ==> (DecodeGridWidth(j).Success? <==> j.r == j.r.Floor as real)
    ensures j.JFrac? && DecodeGridWidth(j).Failure? ==> DecodeGridWidth(j).error == NotWhole
    ensures j.JString? ==> (DecodeGridWidth(j).Success? <==> HasSuffix(j.s, "px"))
    ensures j.JString? && HasSuffix(j.s, "px") ==> DecodeGridWidth(j) == Success(Struct(GridColumnWidth, [Str(j.s)]))
    ensures !(j.JInt? || j.JFrac? || j.JString?) ==> DecodeGridWidth(j) == Failure(WidthKind)
  {
  }

  /** A decoded `GridColumnWidth` encodes back to its payload (a whole fraction comes back as the integer). */
  lemma GridWidthDecodeEncode(tables: Tables, types: map<string, TypeName>, j: Json)
    requires DecodeGridWidth(j).Success?
    ensures Encode(tables, types, DecodeGridWidth(j).value) == Success(if j.JFrac? then JInt(j.r.Floor) else j)
  {
    var x := DecodeGridWidth(j).value.fields[0];
    assert DecodeGridWidth(j).value == Struct(GridColumnWidth, [x]);
    GridWidthEncodesValue(tables, types, x);
  }

  /** An integer width, or a string ending in "px", survives encoding and decoding. */
  lemma GridWidthEncodeDecode(tables: Tables, types: map<string, TypeName>, x: Value)
    requires x.Int? || (x.Str? && HasSuffix(x.s, "px"))
    ensures var e := Encode(tables, types, Struct(GridColumnWidth, [x]));
      e.Success? && DecodeGridWidth(e.value) == Success(Struct(GridColumnWidth, [x]))
  {
    GridWidthEncodesValue(tables, types, x);
  }

  /** A `GridColumnWidth` field is decoded by its own `UnmarshalJSON`. */
  lemma DecodeGridWidthDispatch(tables: Tables, types: map<string, TypeName>, j: Json)
    ensures Decode(tables, types, j, TStruct(GridColumnWidth)) == DecodeGridWidth(j)
  {
    assert DecodeStruct(tables, types, j, GridColumnWidth) == DecodeGridWidth(j);
  }

  /** `TargetElement.UnmarshalJSON`: a string writes the element id and nothing else; null writes nothing. */
  method UnmarshalTargetElement(j: Json, t: Ref) returns (err: Option<DecodeError>)
    modifies t
    ensures match DecodeTarget(j, old(t.value))
      case Success(v) => t.value == v && err.None?
      case Failure(e) => t.value == old(t.value) && err == Some(e)
  {
    match j
    case JString(s) =>
      t.value := Struct(TargetElement, [Str(s), At(TargetElementFields(), FieldsOf(t.value), 1)]);
      return None;
    case JNull =>
      return None;
    case _ =>
      return Some(Diverges);
  }

  /** The bare-string form: the id is the string and `IsVisible` is left as it was (nil in a fresh value). */
  lemma TargetStringForm(tables: Tables, types: map<string, TypeName>, s: string, fs: seq<Value>)
    requires |fs| == 2
    ensures DecodeTarget(JString(s), Struct(TargetElement, fs)) == Success(Struct(TargetElement, [Str(s), fs[1]]))
    ensures Decode(tables, types, JString(s), TStruct(TargetElement)) == Success(Struct(TargetElement, [Str(s), Nil]))
  {
    assert DecodeStruct(tables, types, JString(s), TargetElement) == DecodeTarget(JString(s), ZeroTarget);
  }

  /** Any payload other than a string or null sends `TargetElement.UnmarshalJSON` into endless self-recursion. */
  lemma TargetObjectDiverges(j: Json, held: Value)
    requires !j.JString? && !j.JNull?
    ensures DecodeTarget(j, held) == Failure(Diverges)
  {
  }

  /** A target with `IsVisible` nil encodes as its bare id and decodes back to itself; a bare id round-trips too. */
  lemma TargetRoundTrip(tables: Tables, types: map<string, TypeName>, id: string)
    ensures var e := Encode(tables, types, Struct(TargetElement, [Str(id), Nil]));
      e.Success? && Decode(tables, types, e.value, TStruct(TargetElement)) == Success(Struct(TargetElement, [Str(id), Nil]))
    ensures var d := Decode(tables, types, JString(id), TStruct(TargetElement));
      d.Success? && Encode(tables, types, d.value) == Success(JString(id))
  {
    TargetEncodesId(tables, types, id);
    TargetStringForm(tables, types, id, [Str(""), Nil]);
  }
}
