/**
 * The version validator: `ValidateVersion` walks a card value field by field
 * and reports every non-zero field whose `version` tag names a schema
 * version newer than the card's.
 *
 * The walk is specified in two steps. `Requirements` lists, independently
 * of any card version, every field the walk inspects that carries a
 * version tag and a non-zero value, under the name the validator reports
 * it by; `Select` parses each tag, skips one that does not parse, and
 * keeps those the card version does not support.
 * `ValidateStruct` is the validator's own imperative walk, proved to
 * produce exactly that selection.
 */
module Validation {
  import opened Wrappers
  import opened Text
  import opened Schema
  import opened Values
  import opened Versions

  /** `ValidationError`. */
  datatype ValidationError = ValidationError(fieldName: string, required: Version, card: Version)

  /** A field the walk found non-zero and carrying a version tag, with the tag as written. */
  datatype Requirement = Requirement(fieldName: string, tag: string)

  /** The name of a field under `prefix`: `Parent.Field`, or just `Field` at the top. */
  function Qualify(prefix: string, name: string): string
  {
    if prefix == "" then name else prefix + "." + name
  }

  lemma QualifyUnder(prefix: string, name: string)
    requires prefix != ""
    ensures Under(Qualify(prefix, name), prefix)
  {
    assert (prefix + "." + name)[..|prefix|] == prefix;
  }

  /** The name of the `j`-th item of a slice field: `Field[j]`. */
  function Index(name: string, j: nat): (r: string)
    ensures Under(r, name)
  {
    name + "[" + FormatInt(j) + "]"
  }

  /** `s` names something strictly inside `p`: `p` followed by `.` or `[`. */
  predicate Under(s: string, p: string)
  {
    |s| > |p| && s[..|p|] == p && (s[|p|] == '.' || s[|p|] == '[')
  }

  lemma UnderTransitive(s: string, q: string, p: string)
    requires Under(s, q) && Under(q, p)
    ensures Under(s, p)
  {
    assert s[..|q|][..|p|] == s[..|p|];
  }

  /** The requirement a field states about itself: a version tag on a non-zero value. */
  function Own(f: Field, fv: Value, name: string): (r: seq<Requirement>)
    ensures r == [] <==> VersionTag(f) == "" || IsZero(fv, f.ty)
    ensures r != [] ==> r == [Requirement(name, VersionTag(f))]
  {
    var tag := VersionTag(f);
    if tag == "" || IsZero(fv, f.ty) then [] else [Requirement(name, tag)]
  }

  /**
   * `validateStruct` on a value of type `ty`, before the card version is
   * consulted: pointers are followed until a nil one (which yields nothing)
   * or a struct; anything else, an interface included, yields nothing.
   */
  function Requirements(tables: Tables, v: Value, ty: GoType, prefix: string): seq<Requirement>
    decreases Size(v), 2, 0
  {
    match ty
    case TPtr(e) => if v.Ptr? then Requirements(tables, v.target, e, prefix) else []
    case TStruct(t) => if v.Struct? then FieldsRequirements(tables, tables(t), v, prefix, |tables(t)|) else []
    case _ => []
  }

  /** The field loop of `validateStruct` over the first `n` fields of the struct value `v`. */
  function FieldsRequirements(tables: Tables, schema: seq<Field>, v: Value, prefix: string, n: nat): seq<Requirement>
    requires v.Struct? && n <= |schema|
    decreases Size(v), 1, n
  {
    if n == 0 then []
    else
      FieldSmaller(schema, v.fields, n - 1);
      FieldsRequirements(tables, schema, v, prefix, n - 1)
        + FieldRequirements(tables, schema[n - 1], At(schema, v.fields, n - 1), Qualify(prefix, schema[n - 1].name))
  }

  /**
   * One field: its own requirement, then those found below it. A non-nil
   * pointer is walked; each item of a slice is walked under its indexed
   * name; a field of any other kind (an interface among them) is not
   * descended.
   */
  function FieldRequirements(tables: Tables, f: Field, fv: Value, name: string): seq<Requirement>
    decreases Size(fv), 3, 1
  {
    Own(f, fv, name) + Below(tables, f, fv, name)
  }

  /** What the walk finds below a field. */
  function Below(tables: Tables, f: Field, fv: Value, name: string): seq<Requirement>
    decreases Size(fv), 3, 0
  {
    if f.ty.TPtr? && fv != Nil then Requirements(tables, fv, f.ty, name)
    else if f.ty.TSlice? && fv.Slice? then ItemsRequirements(tables, fv, f.ty.elem, name, |fv.items|)
    else []
  }

  /** The item loop over the first `n` items of a slice field. */
  function ItemsRequirements(tables: Tables, slice: Value, e: GoType, name: string, n: nat): seq<Requirement>
    requires slice.Slice? && n <= |slice.items|
    decreases Size(slice), 2, n
  {
    if n == 0 then []
    else
      ItemSmaller(slice.items, n - 1);
      ItemsRequirements(tables, slice, e, name, n - 1) + Requirements(tables, slice.items[n - 1], e, Index(name, n - 1))
  }

  /**
   * The requirements a card version does not meet, as errors, in order. A
   * tag that does not parse is skipped.
   */
  function Select(rs: seq<Requirement>, cv: Version): seq<ValidationError>
  {
    if rs == [] then []
    else
      Select(rs[..|rs| - 1], cv) + Check(rs[|rs| - 1], cv)
  }

  /** The check of one requirement against the card version. */
  function Check(r: Requirement, cv: Version): seq<ValidationError>
  {
    match ParseVersion(r.tag)
    case Success(req) => if Supports(cv, req) then [] else [ValidationError(r.fieldName, req, cv)]
    case Failure(_) => []
  }

  /** `ValidateVersion(v, cardVersion)`: an unparseable card version is the single error `version`. */
  function Violations(tables: Tables, v: Value, ty: GoType, cardVersion: string): seq<ValidationError>
  {
    match ParseVersion(cardVersion)
    case Failure(_) => [ValidationError("version", ZeroVersion, ZeroVersion)]
    case Success(cv) => Select(Requirements(tables, v, ty, ""), cv)
  }

  // ---------------------------------------------------------------------
  // The validator's walk

  /** `validateStruct(val, cardVersion, prefix)`. */
  method ValidateStruct(tables: Tables, v: Value, ty: GoType, cv: Version, prefix: string) returns (errs: seq<ValidationError>)
    ensures errs == Select(Requirements(tables, v, ty, prefix), cv)
    decreases Size(v), 2, 0
  {
    var val, t := v, ty;
    while t.TPtr?
      invariant Requirements(tables, val, t, prefix) == Requirements(tables, v, ty, prefix)
      invariant Size(val) <= Size(v)
      decreases t
    {
      if !val.Ptr? {
        return [];
      }
      val, t := val.target, t.elem;
    }
    if !t.TStruct? || !val.Struct? {
      return [];
    }
    errs := ValidateFields(tables, val, tables(t.name), cv, prefix);
  }

  /** The field loop of `validateStruct`. */
  method ValidateFields(tables: Tables, v: Value, schema: seq<Field>, cv: Version, prefix: string) returns (errs: seq<ValidationError>)
    requires v.Struct?
    ensures errs == Select(FieldsRequirements(tables, schema, v, prefix, |schema|), cv)
    decreases Size(v), 1, 0
  {
    errs := [];
    for i := 0 to |schema|
      invariant errs == Select(FieldsRequirements(tables, schema, v, prefix, i), cv)
    {
      errs := ValidateNextField(tables, v, schema, cv, prefix, i, errs);
    }
  }

  /** One turn of the field loop: the errors so far, then those of field `i` under its qualified name. */
  method ValidateNextField(tables: Tables, v: Value, schema: seq<Field>, cv: Version, prefix: string, i: nat, errs0: seq<ValidationError>)
    returns (errs: seq<ValidationError>)
    requires v.Struct? && i < |schema|
    requires errs0 == Select(FieldsRequirements(tables, schema, v, prefix, i), cv)
    ensures errs == Select(FieldsRequirements(tables, schema, v, prefix, i + 1), cv)
    decreases Size(v), 0, 0
  {
    FieldSmaller(schema, v.fields, i);
    var more := ValidateField(tables, schema[i], At(schema, v.fields, i), cv, Qualify(prefix, schema[i].name));
    SelectFieldsStep(tables, schema, v, prefix, cv, i);
    errs := errs0 + more;
  }

  /** The body of the field loop: the field's own check, then the walk below it. */
  method ValidateField(tables: Tables, f: Field, fv: Value, cv: Version, name: string) returns (errs: seq<ValidationError>)
    ensures errs == Select(FieldRequirements(tables, f, fv, name), cv)
    decreases Size(fv), 3, 0
  {
    errs := [];
    var tag := VersionTag(f);
    if tag != "" && !IsZero(fv, f.ty) {
      var parsed := ParseVersion(tag);
      if parsed.Success? && !Supports(cv, parsed.value) {
        errs := [ValidationError(name, parsed.value, cv)];
      }
    }
    assert errs == Select(Own(f, fv, name), cv);
    var below: seq<ValidationError> := [];
    if f.ty.TPtr? && fv != Nil {
      below := ValidateStruct(tables, fv, f.ty, cv, name);
    } else if f.ty.TSlice? && fv.Slice? {
      below := ValidateItems(tables, fv, f.ty.elem, cv, name);
    }
    SelectAppend(Own(f, fv, name), Below(tables, f, fv, name), cv);
    errs := errs + below;
  }

  /** The item loop of `validateStruct` for a slice field. */
  method ValidateItems(tables: Tables, slice: Value, e: GoType, cv: Version, name: string) returns (errs: seq<ValidationError>)
    requires slice.Slice?
    ensures errs == Select(ItemsRequirements(tables, slice, e, name, |slice.items|), cv)
    decreases Size(slice), 2, |slice.items| + 1
  {
    errs := [];
    for j := 0 to |slice.items|
      invariant errs == Select(ItemsRequirements(tables, slice, e, name, j), cv)
    {
      ItemSmaller(slice.items, j);
      var more := ValidateStruct(tables, slice.items[j], e, cv, Index(name, j));
      SelectAppend(ItemsRequirements(tables, slice, e, name, j), Requirements(tables, slice.items[j], e, Index(name, j)), cv);
      errs := errs + more;
    }
  }

  /** `ValidateVersion(v, cardVersion)`. */
  method ValidateVersion(tables: Tables, v: Value, ty: GoType, cardVersion: string) returns (errs: seq<ValidationError>)
    ensures errs == Violations(tables, v, ty, cardVersion)
  {
    var parsed := ParseVersion(cardVersion);
    if parsed.Failure? {
      return [ValidationError("version", ZeroVersion, ZeroVersion)];
    }
    errs := ValidateStruct(tables, v, ty, parsed.value, "");
  }

  /** The index of `Version` in the field table of `AdaptiveCard`. */
  const CardVersionIndex: nat := 11

  lemma CardVersionField()
    ensures CardVersionIndex < |Fields(AdaptiveCard)| && Fields(AdaptiveCard)[CardVersionIndex].name == "Version"
    ensures Fields(AdaptiveCard)[CardVersionIndex].ty == TString
  {
    CardFieldsParts();
    CardFieldsHead();
    CardFieldsVersion();
    MiddleIndex(AdaptiveCardFieldsHead(), AdaptiveCardFieldsMiddle(), AdaptiveCardFieldsTail(), CardVersionIndex);
  }

  lemma MiddleIndex(head: seq<Field>, middle: seq<Field>, tail: seq<Field>, i: nat)
    requires |head| <= i < |head| + |middle|
    ensures i < |head + middle + tail| && (head + middle + tail)[i] == middle[i - |head|]
  {
  }

  lemma CardFieldsParts()
    ensures Fields(AdaptiveCard) == AdaptiveCardFieldsHead() + AdaptiveCardFieldsMiddle() + AdaptiveCardFieldsTail()
  {
    CardTable();
  }

  lemma CardFieldsHead()
    ensures |AdaptiveCardFieldsHead()| == 6
  {
  }

  lemma CardFieldsVersion()
    ensures |AdaptiveCardFieldsMiddle()| > 5 && AdaptiveCardFieldsMiddle()[5] == F0("Version", "version", TString)
  {
  }

  /** The card's `Version` field, or "" when it is not a string. */
  function CardVersion(card: Value): string
    requires card.Struct? && card.ty == AdaptiveCard
  {
    CardVersionField();
    var version := At(Fields(AdaptiveCard), card.fields, CardVersionIndex);
    if version.Str? then version.s else ""
  }

  /** `AdaptiveCard.Validate`: the card (the struct its receiver points to) validated against its own `Version` field. */
  method Validate(card: Value) returns (errs: seq<ValidationError>)
    requires card.Struct? && card.ty == AdaptiveCard
    ensures errs == Violations(Fields, card, TStruct(AdaptiveCard), CardVersion(card))
  {
    errs := ValidateVersion(Fields, card, TStruct(AdaptiveCard), CardVersion(card));
  }

  // ---------------------------------------------------------------------
  // Properties

  lemma {:induction false} SelectAppend(rs: seq<Requirement>, more: seq<Requirement>, cv: Version)
    ensures Select(rs + more, cv) == Select(rs, cv) + Select(more, cv)
    decreases |more|
  {
    if more == [] {
      assert rs + more == rs;
    } else {
      var init := more[..|more| - 1];
      assert (rs + more)[..|rs + more| - 1] == rs + init;
      SelectAppend(rs, init, cv);
    }
  }

  /** Some requirement in `rs` names `name` with a tag that parses as `req`. */
  predicate Demands(rs: seq<Requirement>, name: string, req: Version)
  {
    exists r :: r in rs && r.fieldName == name && ParseVersion(r.tag) == Success(req)
  }

  /**
   * An error is reported exactly for a requirement whose tag parses to a
   * version the card version does not support, and carries the card version.
   */
  lemma {:induction false} SelectMembers(rs: seq<Requirement>, cv: Version, e: ValidationError)
    ensures e in Select(rs, cv) <==> e.card == cv && !Supports(cv, e.required) && Demands(rs, e.fieldName, e.required)
    decreases |rs|
  {
    if rs != [] {
      var init, last := rs[..|rs| - 1], rs[|rs| - 1];
      SelectMembers(init, cv, e);
      assert rs == init + [last];
      DemandsSnoc(init, last, e.fieldName, e.required);
      CheckMembers(last, cv, e);
    }
  }

  lemma DemandsSnoc(init: seq<Requirement>, last: Requirement, name: string, req: Version)
    ensures Demands(init + [last], name, req) <==>
      Demands(init, name, req) || (last.fieldName == name && ParseVersion(last.tag) == Success(req))
  {
    var rs := init + [last];
    if Demands(rs, name, req) {
      var r :| r in rs && r.fieldName == name && ParseVersion(r.tag) == Success(req);
      if r != last {
        assert r in init;
      }
    }
    if Demands(init, name, req) {
      var r :| r in init && r.fieldName == name && ParseVersion(r.tag) == Success(req);
      assert r in rs;
    }
    assert last in rs;
  }

  lemma CheckMembers(r: Requirement, cv: Version, e: ValidationError)
    ensures e in Check(r, cv) <==>
      e.card == cv && !Supports(cv, e.required) && r.fieldName == e.fieldName && ParseVersion(r.tag) == Success(e.required)
  {
  }

  /**
   * Validation is monotone in the card version: a card version that supports
   * another reports no field the other does not.
   */
  lemma ViolationsMonotone(rs: seq<Requirement>, older: Version, newer: Version)
    requires Supports(newer, older)
    ensures forall e :: e in Select(rs, newer) ==> ValidationError(e.fieldName, e.required, older) in Select(rs, older)
  {
    forall e | e in Select(rs, newer)
      ensures ValidationError(e.fieldName, e.required, older) in Select(rs, older)
    {
      SelectMembers(rs, newer, e);
      if Supports(older, e.required) {
        SupportsTransitive(newer, older, e.required);
      }
      SelectMembers(rs, older, ValidationError(e.fieldName, e.required, older));
    }
  }

  /** A card version that does not parse gives exactly one error, `version`, with both versions zero. */
  lemma BadVersionSingleError(tables: Tables, v: Value, ty: GoType, cardVersion: string)
    requires ParseVersion(cardVersion).Failure?
    ensures Violations(tables, v, ty, cardVersion) == [ValidationError("version", Version(0, 0), Version(0, 0))]
  {
  }

  /** A nil pointer, an interface and a non-struct value are not walked. */
  lemma NotWalked(tables: Tables, v: Value, ty: GoType, prefix: string)
    requires (ty.TPtr? && v == Nil) || ty.TIface? || ty in {TString, TBool, TInt, TMap} || ty.TSlice?
    ensures Requirements(tables, v, ty, prefix) == []
  {
  }

  /** Every name found below `prefix` is strictly inside it. */
  lemma {:induction false} RequirementsUnder(tables: Tables, v: Value, ty: GoType, prefix: string)
    requires prefix != ""
    ensures forall r :: r in Requirements(tables, v, ty, prefix) ==> Under(r.fieldName, prefix)
    decreases Size(v), 2, 0
  {
    match ty
    case TPtr(e) =>
      if v.Ptr? {
        RequirementsUnder(tables, v.target, e, prefix);
      }
    case TStruct(t) =>
      if v.Struct? {
        FieldsUnder(tables, tables(t), v, prefix, |tables(t)|);
      }
    case _ =>
  }

  lemma {:induction false} FieldsUnder(tables: Tables, schema: seq<Field>, v: Value, prefix: string, n: nat)
    requires v.Struct? && n <= |schema| && prefix != ""
    ensures forall r :: r in FieldsRequirements(tables, schema, v, prefix, n) ==> Under(r.fieldName, prefix)
    decreases Size(v), 1, n
  {
    if n > 0 {
      FieldsUnder(tables, schema, v, prefix, n - 1);
      FieldSmaller(schema, v.fields, n - 1);
      var name := Qualify(prefix, schema[n - 1].name);
      QualifyUnder(prefix, schema[n - 1].name);
      FieldAtOrUnder(tables, schema[n - 1], At(schema, v.fields, n - 1), name);
      forall r | r in FieldRequirements(tables, schema[n - 1], At(schema, v.fields, n - 1), name)
        ensures Under(r.fieldName, prefix)
      {
        if r.fieldName != name {
          UnderTransitive(r.fieldName, name, prefix);
        }
      }
    }
  }

  /** A field's requirements are named by the field itself (only its own one) or by something strictly inside it. */
  lemma FieldAtOrUnder(tables: Tables, f: Field, fv: Value, name: string)
    requires name != ""
    ensures forall r :: r in FieldRequirements(tables, f, fv, name) ==>
      (r.fieldName == name && r in Own(f, fv, name)) || Under(r.fieldName, name)
    decreases Size(fv), 3, 0
  {
    if f.ty.TPtr? && fv != Nil {
      RequirementsUnder(tables, fv, f.ty, name);
    } else if f.ty.TSlice? && fv.Slice? {
      ItemsUnder(tables, fv, f.ty.elem, name, |fv.items|);
    }
  }

  lemma {:induction false} ItemsUnder(tables: Tables, slice: Value, e: GoType, name: string, n: nat)
    requires slice.Slice? && n <= |slice.items|
    ensures forall r :: r in ItemsRequirements(tables, slice, e, name, n) ==> Under(r.fieldName, name)
    decreases Size(slice), 2, n
  {
    if n > 0 {
      ItemsUnder(tables, slice, e, name, n - 1);
      ItemSmaller(slice.items, n - 1);
      var item := Index(name, n - 1);
      RequirementsUnder(tables, slice.items[n - 1], e, item);
      forall r | r in Requirements(tables, slice.items[n - 1], e, item)
        ensures Under(r.fieldName, name)
      {
        UnderTransitive(r.fieldName, item, name);
      }
    }
  }

  /** A field reports nothing under a plain name other than its own. */
  lemma FieldNotNamed(tables: Tables, f: Field, fv: Value, fname: string, name: string)
    requires fname != "" && fname != name && '.' !in name && '[' !in name
    ensures forall r :: r in FieldRequirements(tables, f, fv, fname) ==> r.fieldName != name
  {
    FieldAtOrUnder(tables, f, fv, fname);
    forall r | r in FieldRequirements(tables, f, fv, fname)
      ensures r.fieldName != name
    {
      if Under(r.fieldName, fname) {
        assert r.fieldName[|fname|] in r.fieldName;
      }
    }
  }

  /** Fields other than the one called `name` report nothing under that name. */
  lemma {:induction false} NameAbsent(tables: Tables, schema: seq<Field>, v: Value, n: nat, name: string)
    requires v.Struct? && n <= |schema| && '.' !in name && '[' !in name
    requires forall k :: 0 <= k < n ==> schema[k].name != "" && schema[k].name != name
    ensures forall r :: r in FieldsRequirements(tables, schema, v, "", n) ==> r.fieldName != name
  {
    if n > 0 {
      NameAbsent(tables, schema, v, n - 1, name);
      FieldNotNamed(tables, schema[n - 1], At(schema, v.fields, n - 1), schema[n - 1].name, name);
    }
  }

  /** At the top of the walk, a requirement named after a field is that field's own one, and only that. */
  lemma {:induction false} TopLevelNamed(tables: Tables, schema: seq<Field>, v: Value, n: nat, i: nat, tag: string)
    requires v.Struct? && i < n <= |schema| && PlainName(schema, i)
    ensures var f := schema[i];
      (Requirement(f.name, tag) in FieldsRequirements(tables, schema, v, "", n)
       <==> Own(f, At(schema, v.fields, i), f.name) == [Requirement(f.name, tag)])
  {
    var f := schema[i];
    var target := Requirement(f.name, tag);
    var own := Own(f, At(schema, v.fields, i), f.name);
    if i < n - 1 {
      TopLevelNamed(tables, schema, v, n - 1, i, tag);
      FieldNotNamed(tables, schema[n - 1], At(schema, v.fields, n - 1), schema[n - 1].name, f.name);
    } else {
      NameAbsent(tables, schema, v, n - 1, f.name);
      FieldAtOrUnder(tables, f, At(schema, v.fields, i), f.name);
      if target in FieldRequirements(tables, f, At(schema, v.fields, i), f.name) {
        assert target in own;
      }
    }
  }

  /**
   * The validator's verdict on a top-level field of a struct: an error for
   * `Field` with required version `req` is reported exactly when the field's
   * version tag parses as `req`, its value is not zero, and the card version
   * does not support `req`.
   */
  lemma TopLevelViolation(tables: Tables, t: TypeName, fs: seq<Value>, cardVersion: string, i: nat, req: Version)
    requires ParseVersion(cardVersion).Success?
    requires i < |tables(t)| && PlainName(tables(t), i)
    ensures var f := tables(t)[i];
      var cv := ParseVersion(cardVersion).value;
      (ValidationError(f.name, req, cv) in Violations(tables, Struct(t, fs), TStruct(t), cardVersion)
       <==> VersionTag(f) != "" && !IsZero(At(tables(t), fs, i), f.ty) && ParseVersion(VersionTag(f)) == Success(req)
            && !Supports(cv, req))
  {
    var schema := tables(t);
    var f := schema[i];
    var cv := ParseVersion(cardVersion).value;
    var rs := Requirements(tables, Struct(t, fs), TStruct(t), "");
    assert rs == FieldsRequirements(tables, schema, Struct(t, fs), "", |schema|);
    SelectMembers(rs, cv, ValidationError(f.name, req, cv));
    if Demands(rs, f.name, req) {
      var r :| r in rs && r.fieldName == f.name && ParseVersion(r.tag) == Success(req);
      TopLevelNamed(tables, schema, Struct(t, fs), |schema|, i, r.tag);
    }
    var own := Requirement(f.name, VersionTag(f));
    TopLevelNamed(tables, schema, Struct(t, fs), |schema|, i, VersionTag(f));
    if VersionTag(f) != "" && !IsZero(At(tables(t), fs, i), f.ty) && ParseVersion(VersionTag(f)) == Success(req) {
      assert own in rs;
    }
  }

  lemma FieldsStep(tables: Tables, schema: seq<Field>, v: Value, prefix: string, n: nat)
    requires v.Struct? && 0 < n <= |schema|
    ensures FieldsRequirements(tables, schema, v, prefix, n) ==
      FieldsRequirements(tables, schema, v, prefix, n - 1)
        + FieldRequirements(tables, schema[n - 1], At(schema, v.fields, n - 1), Qualify(prefix, schema[n - 1].name))
  {
  }

  /** The errors for one more field are those for the fields before it, then the field's own. */
  lemma SelectFieldsStep(tables: Tables, schema: seq<Field>, v: Value, prefix: string, cv: Version, i: nat)
    requires v.Struct? && i < |schema|
    ensures Select(FieldsRequirements(tables, schema, v, prefix, i + 1), cv) ==
      Select(FieldsRequirements(tables, schema, v, prefix, i), cv)
        + Select(FieldRequirements(tables, schema[i], At(schema, v.fields, i), Qualify(prefix, schema[i].name)), cv)
  {
    FieldsStep(tables, schema, v, prefix, i + 1);
    SelectAppend(FieldsRequirements(tables, schema, v, prefix, i),
      FieldRequirements(tables, schema[i], At(schema, v.fields, i), Qualify(prefix, schema[i].name)), cv);
  }

  /** Everything found for field `i` of a struct is found for the struct. */
  lemma {:induction false} FieldIncluded(tables: Tables, schema: seq<Field>, v: Value, prefix: string, n: nat, i: nat, r: Requirement)
    requires v.Struct? && i < n <= |schema|
    requires r in FieldRequirements(tables, schema[i], At(schema, v.fields, i), Qualify(prefix, schema[i].name))
    ensures r in FieldsRequirements(tables, schema, v, prefix, n)
  {
    FieldsStep(tables, schema, v, prefix, n);
    if i + 1 < n {
      var m: nat := n - 1;
      FieldIncluded(tables, schema, v, prefix, m, i, r);
    }
  }

  lemma ItemsStep(tables: Tables, slice: Value, e: GoType, name: string, n: nat)
    requires slice.Slice? && 0 < n <= |slice.items|
    ensures ItemsRequirements(tables, slice, e, name, n) ==
      ItemsRequirements(tables, slice, e, name, n - 1) + Requirements(tables, slice.items[n - 1], e, Index(name, n - 1))
  {
  }

  /** Everything found for item `j` of a slice is found for the slice. */
  lemma {:induction false} ItemIncluded(tables: Tables, slice: Value, e: GoType, name: string, n: nat, j: nat, r: Requirement)
    requires slice.Slice? && j < n <= |slice.items|
    requires r in Requirements(tables, slice.items[j], e, Index(name, j))
    ensures r in ItemsRequirements(tables, slice, e, name, n)
  {
    ItemsStep(tables, slice, e, name, n);
    if j + 1 < n {
      var m: nat := n - 1;
      ItemIncluded(tables, slice, e, name, m, j, r);
    }
  }

  /**
   * Naming through a pointer field: what field `i` of the struct that the
   * field `f` points to states about itself is found for `f` under the name
   * `Parent.Field` (the embedded `*Common` of an element gives
   * `Common.<Field>`). With `FieldIncluded`, it is found for the enclosing
   * struct under that name.
   */
  lemma PointerFieldNaming(tables: Tables, f: Field, g: TypeName, inner: Value, i: nat, r: Requirement)
    requires f.name != "" && f.ty == TPtr(TStruct(g)) && inner.Struct? && i < |tables(g)|
    requires r in Own(tables(g)[i], At(tables(g), inner.fields, i), f.name + "." + tables(g)[i].name)
    ensures r in FieldRequirements(tables, f, Ptr(inner), f.name)
  {
    var gi := tables(g)[i];
    assert Qualify(f.name, gi.name) == f.name + "." + gi.name;
    assert r in FieldRequirements(tables, gi, At(tables(g), inner.fields, i), Qualify(f.name, gi.name));
    FieldIncluded(tables, tables(g), inner, f.name, |tables(g)|, i, r);
    assert Requirements(tables, inner, TStruct(g), f.name) == FieldsRequirements(tables, tables(g), inner, f.name, |tables(g)|);
    assert Below(tables, f, Ptr(inner), f.name) == Requirements(tables, inner, TStruct(g), f.name);
  }

  /**
   * Naming through a slice field: what field `i` of item `j` of the slice
   * field `f` states about itself is found for `f` under the name
   * `Field[j].Inner`.
   */
  lemma SliceItemNaming(tables: Tables, f: Field, g: TypeName, items: seq<Value>, j: nat, i: nat, r: Requirement)
    requires f.ty == TSlice(TPtr(TStruct(g))) && j < |items| && items[j].Ptr? && items[j].target.Struct? && i < |tables(g)|
    requires r in Own(tables(g)[i], At(tables(g), items[j].target.fields, i), Index(f.name, j) + "." + tables(g)[i].name)
    ensures r in FieldRequirements(tables, f, Slice(items), f.name)
  {
    var gi, item, itemName := tables(g)[i], items[j].target, Index(f.name, j);
    assert Qualify(itemName, gi.name) == itemName + "." + gi.name;
    assert r in FieldRequirements(tables, gi, At(tables(g), item.fields, i), Qualify(itemName, gi.name));
    FieldIncluded(tables, tables(g), item, itemName, |tables(g)|, i, r);
    assert Requirements(tables, items[j], TPtr(TStruct(g)), itemName) == FieldsRequirements(tables, tables(g), item, itemName, |tables(g)|);
    ItemIncluded(tables, Slice(items), TPtr(TStruct(g)), f.name, |items|, j, r);
    assert Below(tables, f, Slice(items), f.name) == ItemsRequirements(tables, Slice(items), TPtr(TStruct(g)), f.name, |items|);
  }

  /**
   * The same through a slice of struct values (`[]Column`, `[]Fact`,
   * `[]TargetElement`, `[]GridArea`): field `i` of item `j` is found under
   * `Field[j].Inner`.
   */
  lemma SliceStructItemNaming(tables: Tables, f: Field, g: TypeName, items: seq<Value>, j: nat, i: nat, r: Requirement)
    requires f.ty == TSlice(TStruct(g)) && j < |items| && items[j].Struct? && i < |tables(g)|
    requires r in Own(tables(g)[i], At(tables(g), items[j].fields, i), Index(f.name, j) + "." + tables(g)[i].name)
    ensures r in FieldRequirements(tables, f, Slice(items), f.name)
  {
    var gi, item, itemName := tables(g)[i], items[j], Index(f.name, j);
    assert Qualify(itemName, gi.name) == itemName + "." + gi.name;
    assert r in FieldRequirements(tables, gi, At(tables(g), item.fields, i), Qualify(itemName, gi.name));
    FieldIncluded(tables, tables(g), item, itemName, |tables(g)|, i, r);
    assert Requirements(tables, item, TStruct(g), itemName) == FieldsRequirements(tables, tables(g), item, itemName, |tables(g)|);
    ItemIncluded(tables, Slice(items), TStruct(g), f.name, |items|, j, r);
    assert Below(tables, f, Slice(items), f.name) == ItemsRequirements(tables, Slice(items), TStruct(g), f.name, |items|);
  }

  // ---------------------------------------------------------------------
  // The `verson` tag on AllowExpand

  /** A top-level field with no `version` tag is never reported, whatever it holds. */
  lemma UntaggedNeverReported(tables: Tables, t: TypeName, fs: seq<Value>, cardVersion: string, i: nat, req: Version)
    requires ParseVersion(cardVersion).Success?
    requires i < |tables(t)| && PlainName(tables(t), i) && VersionTag(tables(t)[i]) == ""
    ensures ValidationError(tables(t)[i].name, req, ParseVersion(cardVersion).value) !in Violations(tables, Struct(t, fs), TStruct(t), cardVersion)
  {
    TopLevelViolation(tables, t, fs, cardVersion, i, req);
  }

  /** A top-level field tagged `version:"1.2"` is reported on a 1.0 card exactly when it is not zero. */
  lemma TaggedReported(tables: Tables, t: TypeName, fs: seq<Value>, i: nat)
    requires i < |tables(t)| && PlainName(tables(t), i) && VersionTag(tables(t)[i]) == "1.2"
    ensures ValidationError(tables(t)[i].name, Version(1, 2), Version(1, 0)) in Violations(tables, Struct(t, fs), TStruct(t), "1.0")
      <==> !IsZero(At(tables(t), fs, i), tables(t)[i].ty)
  {
    ParseOneZero();
    ParseOneTwo();
    TopLevelViolation(tables, t, fs, "1.0", i, Version(1, 2));
  }

  /**
   * `ValidateVersion` on an `Image` as declared, with `AllowExpand` tagged
   * `verson`: whatever `AllowExpand` holds and whatever the card version,
   * no error is reported for it.
   */
  lemma AllowExpandNeverChecked(fs: seq<Value>, cardVersion: string, req: Version)
    requires ParseVersion(cardVersion).Success?
    ensures ValidationError("AllowExpand", req, ParseVersion(cardVersion).value) !in Violations(Fields, Struct(Image, fs), TStruct(Image), cardVersion)
  {
    ImageAllowExpandDeclared();
    AsWrittenUntagged();
    UntaggedNeverReported(Fields, Image, fs, cardVersion, 1, req);
  }

  /**
   * With the intended tag, `ValidateVersion(Image{AllowExpand: true}, "1.0")`
   * reports `AllowExpand` as needing 1.2, and it reports it exactly when
   * `AllowExpand` is set.
   */
  lemma AllowExpandCorrectedChecked(fs: seq<Value>)
    ensures ValidationError("AllowExpand", Version(1, 2), Version(1, 0)) in Violations(CorrectedFields, Struct(Image, fs), TStruct(Image), "1.0")
      <==> 1 < |fs| && fs[1] != Bool(false)
  {
    ImageAllowExpandCorrected();
    CorrectedTagged();
    TaggedReported(CorrectedFields, Image, fs, 1);
  }

  /** The same for `TeamsImageProperties`, where `AllowExpand` is field 0. */
  lemma TeamsAllowExpandNeverChecked(fs: seq<Value>, cardVersion: string, req: Version)
    requires ParseVersion(cardVersion).Success?
    ensures ValidationError("AllowExpand", req, ParseVersion(cardVersion).value)
      !in Violations(Fields, Struct(TeamsImageProperties, fs), TStruct(TeamsImageProperties), cardVersion)
  {
    TeamsAllowExpandDeclared();
    AsWrittenUntagged();
    UntaggedNeverReported(Fields, TeamsImageProperties, fs, cardVersion, 0, req);
  }

  lemma TeamsAllowExpandCorrectedChecked(fs: seq<Value>)
    ensures ValidationError("AllowExpand", Version(1, 2), Version(1, 0))
        in Violations(CorrectedFields, Struct(TeamsImageProperties, fs), TStruct(TeamsImageProperties), "1.0")
      <==> 0 < |fs| && fs[0] != Bool(false)
  {
    TeamsAllowExpandCorrected();
    CorrectedTagged();
    TaggedReported(CorrectedFields, TeamsImageProperties, fs, 0);
  }

  lemma ParseOneZero()
    ensures ParseVersion("1.0") == Success(Version(1, 0))
  {
    ParseOfParts("1", "0");
    assert "1" + "." + "0" == "1.0";
    assert Atoi("1") == Some(1) && Atoi("0") == Some(0) by {
      assert "1"[..0] == "" && "0"[..0] == "";
    }
  }

  lemma ParseOneTwo()
    ensures ParseVersion("1.2") == Success(Version(1, 2))
  {
    ParseOfParts("1", "2");
    assert "1" + "." + "2" == "1.2";
    assert Atoi("1") == Some(1) && Atoi("2") == Some(2) by {
      assert "1"[..0] == "" && "2"[..0] == "";
    }
  }
}
