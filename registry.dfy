/**
 * The type registry: the map from a JSON "type" discriminator to the Go
 * struct type it decodes into, filled by the package's `init`, and the
 * reverse lookup the codec uses to find a type's discriminator.
 */
module Registry {
  import opened Wrappers
  import opened Schema

  /** How many registrations `init` performs. */
  const RegistrationCount: nat := 48

  /**
   * The type of the `i`-th registration `init` performs, in source order:
   * AdaptiveCard (assigned directly), then the elements, inputs, inline runs,
   * actions, action data, references, layouts and StringResource. Each is
   * registered under its `Discriminator`.
   */
  function RegisteredType(i: nat): TypeName
    requires i < RegistrationCount
  {
    match i
    case 0 => AdaptiveCard
    case 1 => ActionSet
    case 2 => Badge
    case 3 => CodeBlock
    case 4 => Container
    case 5 => ColumnSet
    case 6 => Column
    case 7 => FactSet
    case 8 => Icon
    case 9 => Image
    case 10 => ImageSet
    case 11 => Media
    case 12 => Rating
    case 13 => RichTextBlock
    case 14 => Table
    case 15 => TextBlock
    case 16 => InputChoiceSet
    case 17 => InputDate
    case 18 => InputNumber
    case 19 => InputRating
    case 20 => InputText
    case 21 => InputTime
    case 22 => InputToggle
    case 23 => TextRun
    case 24 => CitationRun
    case 25 => IconRun
    case 26 => ImageRun
    case 27 => ActionExecute
    case 28 => ActionInsertImage
    case 29 => ActionOpenURL
    case 30 => ActionOpenURLDialog
    case 31 => ActionPopover
    case 32 => ActionResetInputs
    case 33 => ActionRunCommands
    case 34 => ActionShowCard
    case 35 => ActionSubmit
    case 36 => ActionToggleVisibility
    case 37 => ImBackSubmitActionData
    case 38 => MessageBackSubmitActionData
    case 39 => InvokeSubmitActionData
    case 40 => TaskFetchSubmitActionData
    case 41 => SigninSubmitActionData
    case 42 => AdaptiveCardReference
    case 43 => DocumentReference
    case 44 => LayoutStack
    case 45 => LayoutFlow
    case 46 => LayoutAreaGrid
    case _ => StringResource
  }

  /** The `i`-th registration: a name and the type registered under it. */
  function Registration(i: nat): (string, TypeName)
    requires i < RegistrationCount
  {
    var t := RegisteredType(i);
    (if Discriminator(t).Some? then Discriminator(t).value else "", t)
  }

  /** The registry after the first `n` registrations (a later one overwrites an earlier one). */
  function Apply(n: nat): map<string, TypeName>
    requires n <= RegistrationCount
  {
    if n == 0 then map[] else Apply(n - 1)[Registration(n - 1).0 := Registration(n - 1).1]
  }

  /** The registry `init` leaves behind. */
  function StandardTypes(): map<string, TypeName>
  {
    Apply(RegistrationCount)
  }

  /** Each name is registered for the type whose discriminator it is. */
  predicate Canonical(types: map<string, TypeName>)
  {
    forall k :: k in types ==> Discriminator(types[k]) == Some(k)
  }

  /** Every type `init` registers has a discriminator. */
  lemma RegistrationCanonical(i: nat)
    requires i < RegistrationCount
    ensures Discriminator(Registration(i).1) == Some(Registration(i).0)
  {
  }

  /** Registering a type under its discriminator keeps a registry canonical. */
  lemma CanonicalUpdate(types: map<string, TypeName>, k: string, t: TypeName)
    requires Canonical(types) && Discriminator(t) == Some(k)
    ensures Canonical(types[k := t])
  {
  }

  lemma {:induction false} ApplyCanonical(n: nat)
    requires n <= RegistrationCount
    ensures Canonical(Apply(n))
  {
    if n > 0 {
      var r := Registration(n - 1);
      ApplyCanonical(n - 1);
      RegistrationCanonical(n - 1);
      CanonicalUpdate(Apply(n - 1), r.0, r.1);
      assert Apply(n) == Apply(n - 1)[r.0 := r.1];
    }
  }

  /** The names the first `n` registrations use. */
  function Names(n: nat): set<string>
    requires n <= RegistrationCount
  {
    if n == 0 then {} else Names(n - 1) + {Registration(n - 1).0}
  }

  /** The `i`-th registration's name is among the first `n` names, for `i < n`. */
  lemma NamesHas(n: nat, i: nat)
    requires i < n <= RegistrationCount
    ensures Registration(i).0 in Names(n)
  {
    NamesStep(i + 1);
    NamesGrow(i + 1, n);
  }

  /** Later registrations only add names. */
  lemma {:induction false} NamesGrow(m: nat, n: nat)
    requires m <= n <= RegistrationCount
    ensures Names(m) <= Names(n)
  {
    if m < n {
      NamesGrow(m, n - 1);
      NamesStep(n);
    }
  }

  /** Every one of the first `n` names is the name of one of the first `n` registrations. */
  lemma {:induction false} NamesOnly(n: nat, k: string)
    requires n <= RegistrationCount && k in Names(n)
    ensures exists i :: 0 <= i < n && Registration(i).0 == k
  {
    var m: nat := n - 1;
    if k == Registration(m).0 {
      assert 0 <= m < n && Registration(m).0 == k;
    } else {
      NamesOnly(m, k);
      var i :| 0 <= i < m && Registration(i).0 == k;
      assert 0 <= i < n && Registration(i).0 == k;
    }
  }

  /** The first `n` registrations register exactly their own names. */
  lemma {:induction false} ApplyKeys(n: nat)
    requires n <= RegistrationCount
    ensures Apply(n).Keys == Names(n)
  {
    if n > 0 {
      ApplyKeys(n - 1);
      ApplyStep(n);
      NamesStep(n);
      UpdateKeys(Apply(n - 1), Names(n - 1), Registration(n - 1).0, Registration(n - 1).1);
    }
  }

  lemma ApplyStep(n: nat)
    requires 0 < n <= RegistrationCount
    ensures Apply(n) == Apply(n - 1)[Registration(n - 1).0 := Registration(n - 1).1]
  {
  }

  lemma NamesStep(n: nat)
    requires 0 < n <= RegistrationCount
    ensures Names(n) == Names(n - 1) + {Registration(n - 1).0}
  {
  }

  /** Registering a name adds exactly that name to a registry's keys. */
  lemma UpdateKeys(types: map<string, TypeName>, names: set<string>, k: string, t: TypeName)
    requires types.Keys == names
    ensures types[k := t].Keys == names + {k}
  {
  }

  /** The names `init` registers are exactly those of its 48 registrations. */
  lemma StandardKeys(k: string)
    ensures k in StandardTypes() <==> exists i :: 0 <= i < RegistrationCount && Registration(i).0 == k
  {
    ApplyKeys(RegistrationCount);
    if exists i :: 0 <= i < RegistrationCount && Registration(i).0 == k {
      var i :| 0 <= i < RegistrationCount && Registration(i).0 == k;
      NamesHas(RegistrationCount, i);
    }
    if k in StandardTypes() {
      NamesOnly(RegistrationCount, k);
    }
  }

  /** The registry `init` builds is canonical, hence injective. */
  lemma StandardCanonical()
    ensures Canonical(StandardTypes())
  {
    ApplyCanonical(RegistrationCount);
  }

  /** A canonical registry is injective: no type is registered under two names. */
  lemma CanonicalInjective(types: map<string, TypeName>, k1: string, k2: string)
    requires Canonical(types)
    requires k1 in types && k2 in types && types[k1] == types[k2]
    ensures k1 == k2
  {
  }

  /**
   * `FindMapKey(typeRegistry, t)`: a name the type is registered under. The
   * source scans the map in Go's unspecified order; on a canonical registry
   * the discriminator is the only candidate, which is what this returns.
   */
  function NameOf(types: map<string, TypeName>, t: TypeName): (r: Option<string>)
    ensures r.Some? ==> r.value in types && types[r.value] == t
    ensures r.None? && Canonical(types) ==> forall k :: k in types ==> types[k] != t
  {
    match Discriminator(t)
    case Some(k) => if k in types && types[k] == t then Some(k) else None
    case None => None
  }

  /** On a canonical registry the lookup finds exactly the name a type is registered under. */
  lemma NameOfRegistered(types: map<string, TypeName>, t: TypeName, name: string)
    requires Canonical(types) && name in types && types[name] == t
    ensures NameOf(types, t) == Some(name)
  {
    assert Discriminator(types[name]) == Some(name);
  }

  /**
   * `FindMapKey`: some key mapped to `value`, found by scanning the keys in an
   * unspecified order, or None when `value` is not in the map.
   */
  method FindMapKey<K, V(==)>(m: map<K, V>, value: V) returns (r: Option<K>)
    ensures r.Some? ==> r.value in m && m[r.value] == value
    ensures r.None? <==> (forall k :: k in m ==> m[k] != value)
  {
    var unseen := m.Keys;
    while unseen != {}
      invariant unseen <= m.Keys
      invariant forall k :: k in m && k !in unseen ==> m[k] != value
      decreases |unseen|
    {
      var k :| k in unseen;
      if m[k] == value {
        return Some(k);
      }
      unseen := unseen - {k};
    }
    return None;
  }

  /** On a canonical registry the scan's answer does not depend on the order: it is `NameOf`. */
  lemma FindMapKeyCanonical(types: map<string, TypeName>, t: TypeName, r: Option<string>)
    requires Canonical(types)
    requires r.Some? ==> r.value in types && types[r.value] == t
    requires r.None? <==> (forall k :: k in types ==> types[k] != t)
    ensures r == NameOf(types, t)
  {
  }

  /** The package-level registry: one map, written by `RegisterType`. */
  class TypeRegistry {
    var types: map<string, TypeName>

    /** `make(map[string]reflect.Type)`. */
    constructor ()
      ensures types == map[]
    {
      types := map[];
    }

    /** `RegisterType`: insert or overwrite the name's entry; nothing else changes. */
    method RegisterType(name: string, t: TypeName)
      modifies this
      ensures types == old(types)[name := t]
    {
      types := types[name := t];
    }

    /** The package's `init`: one registration per table entry, in source order, on the empty registry. */
    method Init()
      modifies this
      requires types == map[]
      ensures types == StandardTypes()
    {
      for i := 0 to RegistrationCount
        invariant types == Apply(i)
      {
        RegisterType(Registration(i).0, Registration(i).1);
      }
    }
  }
}
