/**
 * Runtime values of the package's Go types, and the two notions the codecs
 * and the validator share: a type's zero value and `isZeroValue` /
 * `isEmptyValue`.
 */
module Values {
  import opened Wrappers
  import opened Json
  import opened Schema

  datatype Value =
    | Nil                                  // a nil pointer, slice, map or interface
    | Str(s: string)
    | Bool(b: bool)
    | Int(i: int)
    | Ptr(target: Value)                   // a non-nil pointer, or an interface holding one
    | Slice(items: seq<Value>)             // a non-nil slice
    | StrMap(entries: map<string, string>) // a non-nil map[string]string
    | Struct(ty: TypeName, fields: seq<Value>) // field values in declaration order
    | Dyn(j: Json)                         // a non-null JSON value decoded into an `any`

  /** The zero value of a field's declared type. */
  function ZeroOf(ty: FieldType): (v: Value)
    ensures v == Nil || v == Str("") || v == Bool(false) || v == Int(0)
  {
    match ty
    case TString => Str("")
    case TBool => Bool(false)
    case TInt => Int(0)
    case _ => Nil
  }

  /** `reflect.New(t).Elem()` for a struct type: every field at its zero value. */
  function ZeroStruct(tables: Tables, t: TypeName): (v: Value)
    ensures v.Struct? && v.ty == t && |v.fields| == |tables(t)|
  {
    Struct(t, seq(|tables(t)|, i requires 0 <= i < |tables(t)| => ZeroOf(tables(t)[i].ty)))
  }

  function Zero(tables: Tables, ty: GoType): Value
  {
    if ty.TStruct? then ZeroStruct(tables, ty.name) else ZeroOf(ty)
  }

  /**
   * `isZeroValue` (validator) and `isEmptyValue` (encoder), which agree: the
   * empty string, slice or map, `false`, `0`, a nil pointer or interface. A
   * struct is never empty, whatever its fields hold.
   */
  predicate IsZero(v: Value, ty: GoType)
  {
    match ty
    case TString => v == Str("")
    case TBool => v == Bool(false)
    case TInt => v == Int(0)
    case TSlice(_) => v == Nil || v == Slice([])
    case TMap => v == Nil || v == StrMap(map[])
    case TPtr(_) => v == Nil
    case TIface(_) => v == Nil
    case TStruct(_) => false
  }

  /** Every non-struct type's zero value is zero, and only a zero value is (for values of that type's shape). */
  lemma ZeroIsZero(tables: Tables, ty: GoType)
    ensures !ty.TStruct? <==> IsZero(Zero(tables, ty), ty)
  {
  }

  /** An interface holding an empty string is not empty: only a nil interface is. */
  lemma InterfaceHoldingEmptyString(c: Option<Category>)
    ensures !IsZero(Str(""), TIface(c)) && IsZero(Str(""), TString)
  {
  }

  /** The field at index `i` of a struct value with field table `schema`, or that field's zero value when `fs` is too short. */
  function At(schema: seq<Field>, fs: seq<Value>, i: nat): Value
    requires i < |schema|
  {
    if i < |fs| then fs[i] else ZeroOf(schema[i].ty)
  }

  function Sum(ns: seq<nat>): nat
  {
    if ns == [] then 0 else ns[0] + Sum(ns[1..])
  }

  lemma {:induction false} SumBounds(ns: seq<nat>, i: nat)
    requires i < |ns|
    ensures ns[i] <= Sum(ns)
  {
    if i > 0 {
      SumBounds(ns[1..], i - 1);
    }
  }

  /** A size measure that strictly decreases from a value to each of its parts. */
  function Size(v: Value): nat
  {
    match v
    case Ptr(x) => 1 + Size(x)
    case Slice(items) => 1 + FieldsSize(items)
    case Struct(_, fs) => 2 + FieldsSize(fs)
    case _ => 1
  }

  /** The total size of a sequence of values. */
  function FieldsSize(vs: seq<Value>): nat
  {
    Sum(seq(|vs|, i requires 0 <= i < |vs| => Size(vs[i])))
  }

  lemma ItemSmaller(items: seq<Value>, i: nat)
    requires i < |items|
    ensures Size(items[i]) < Size(Slice(items))
  {
    var sizes := seq(|items|, k requires 0 <= k < |items| => Size(items[k]));
    SumBounds(sizes, i);
  }

  lemma FieldSmaller(schema: seq<Field>, fs: seq<Value>, i: nat)
    requires i < |schema|
    ensures Size(At(schema, fs, i)) < 2 + FieldsSize(fs)
  {
    if i < |fs| {
      var sizes := seq(|fs|, k requires 0 <= k < |fs| => Size(fs[k]));
      SumBounds(sizes, i);
    }
  }
}
