# prometheus-msteams: Adaptive Card codec, version validator and webhook helpers

This project models the core of `prometheus-msteams`, the bridge that receives
Prometheus Alertmanager alerts and posts them to Microsoft Teams as Adaptive
Cards. Three things are modelled:

- **The `adaptivecards` package's polymorphic JSON codec.**
  - A registry maps each `"type"` discriminator to the Go struct it names. The package's `init` fills it.
  - The encoder (`SmartMarshalFromJSON`, `marshalWithType`) flattens the embedded
    `*Common` / `*CommonActionProperties` groups and injects `"type"`.
  - The decoder (`SmartUnmarshalJSON` and the field decoders behind it) decodes fields of interface type by
    reading the discriminator (`ValidateType`, `unmarshalMessage(s)`, `unmarshalFallback`).
  - Two types have hand-written codecs: `TargetElement` and `GridColumnWidth`.
- **The schema-version validator** (`ParseVersion`, `Compare`,
  `SupportsVersion`, `ValidateVersion`, `AdaptiveCard.Validate`).
  - It walks a card and reports every non-zero field whose `version` tag names a schema version newer than the card's.
- **Three helpers of the server entry point.**
  - The start-up check that no two routes share a request path.
  - Taking the webhook URL of a dynamic route from the request path or the `Authorization` header.
  - The start-up check of a configured webhook URL.

Go reflection is replaced by explicit, ordered field tables (`Schema.Fields`). Each entry gives a field's Go name, struct tags, type and whether it is embedded.

Runtime values are a small universe (`Values.Value`): nil, strings, booleans, integers, pointers, slices, string maps, structs, and decoded `any` values. JSON documents are value trees (`Json.Json`).

The codec and the validator take the field table and the registry as parameters. Their general laws hold for any table. The laws about the registry hold for any canonical registry, one where every name is the discriminator of the type registered under it (`Registry.Canonical`). The registry `init` builds is canonical (`Registry.StandardCanonical`), and the package's own table and registry are one instance of these laws.

Modules, one per file:

- `wrappers.dfy`: `Option` and `Result`.
- `text.dfy`: the `strings`/`strconv` functions the source calls.
- `json.dfy`: JSON values.
- `version.dfy` (`Versions`): versions.
- `schema.dfy`: the types, their interfaces, codecs, discriminators and field tables.
- `values.dfy`: runtime values and emptiness.
- `registry.dfy`: the type registry, with `TypeRegistry` as a class whose map `RegisterType` updates.
- `marshal.dfy`: encoding.
- `unmarshal.dfy`: decoding, with the in-place receiver methods as methods over a mutable `Ref`.
- `validate.dfy` (`Validation`): the validator.
- `server.dfy`: the server helpers.

The imperative code stays imperative:

- Every Go loop of the core is a Dafny method with a loop, proved equal to a specification function.
- That covers `FindMapKey`, `init`, `ValidateTypes`, `unmarshalMessages`, `unmarshalSlice`, the scans of the `sliceUnmarshalers` / `singleUnmarshalers` tables, `hasEmbeddedFields`, the field loops of `marshalWithType` and `SmartUnmarshalJSON`, `validateStruct` and `checkDuplicateRequestPath`.
- The decoders these loops call on each item or field are functions (see "## Left out").
- The properties themselves are proved about those functions.

The validator is specified in two steps:

- `Validation.Requirements` lists what the walk finds:
  - every visited non-zero field with a version tag;
  - under the name the validator reports it by, `Parent.Field` or `Field[j]`;
  - independent of the card version.
- `Validation.Select` parses each tag, drops one that does not parse, and keeps the requirements the card version does not support.

Names compose level by level:

- `RequirementsUnder`: everything found below a field is named inside it.
- `TopLevelNamed` and `TopLevelViolation`: at the top, a field's name reports exactly its own requirement.
- `FieldIncluded`, `PointerFieldNaming`, `SliceItemNaming` and `SliceStructItemNaming`: what a nested field states is found under `Parent.Field` / `Field[j].Inner`.

## Model

| member | source | states |
|---|---|---|
| Text.Atoi | pkg/adaptivecards/version.go:45-50 | `strconv.Atoi` as the parser uses it: an optional sign and decimal digits within the 64-bit range; a result starts with a digit or a sign, and is negative only after `-` |
| Versions.ParseVersion | pkg/adaptivecards/version.go:39-56 | the result is a format error exactly when the string does not hold exactly one `.`, and that error carries the input |
| Versions.ParseVersionParts | pkg/adaptivecards/version.go:39-56 | a parsed version is the `Atoi` of the text on either side of the single dot; an invalid-major / invalid-minor error carries the side that failed to parse |
| Versions.ParseOfParts | pkg/adaptivecards/version.go:40-55 | two dot-free parts that `Atoi` accepts, joined by `.`, parse as the version of their values |
| Versions.VersionString | pkg/adaptivecards/version.go:70-72 | the printed form `%d.%d` holds exactly one dot |
| Versions.ParsePrinted | pkg/adaptivecards/version.go:39-72 | parsing the printed form of any version gives that version back |
| Versions.LeadingZerosCollapse | pkg/adaptivecards/version.go:45-55 | leading zeros are accepted: `"1.05"` parses as 1.5 |
| Versions.PrintedWithoutLeadingZero | pkg/adaptivecards/version.go:70-72 | 1.5 prints as `"1.5"`, so print-after-parse is not the identity on strings |
| Versions.Compare | pkg/adaptivecards/version.go:79-93 | the result is -1, 0 or 1; 0 exactly for equal versions, -1 exactly when the first is lexicographically before the second, 1 exactly when after |
| Versions.CompareAntisymmetric | pkg/adaptivecards/version.go:79-93 | swapping the arguments negates the result |
| Versions.SupportsIsNotBefore | pkg/adaptivecards/version.go:96-98 | a card version supports a required one exactly when it is not before it |
| Versions.SupportsReflexive | pkg/adaptivecards/version.go:96-98 | every version supports itself |
| Versions.SupportsTransitive | pkg/adaptivecards/version.go:96-98 | support is transitive |
| Versions.SupportsTotal | pkg/adaptivecards/version.go:96-98 | of any two versions one supports the other |
| Registry.RegistrationCanonical | pkg/adaptivecards/adaptivecards.go:41-102 | every registration `init` performs is under the registered type's own discriminator |
| Registry.CanonicalUpdate | pkg/adaptivecards/unmarshal.go:35-37 | registering a type under its discriminator keeps every name bound to the type it names |
| Registry.ApplyCanonical | pkg/adaptivecards/adaptivecards.go:41-102 | after any number of `init`'s registrations every name is bound to the type whose discriminator it is |
| Registry.StandardCanonical | pkg/adaptivecards/adaptivecards.go:41-102 | the registry `init` leaves behind binds each name to the type whose discriminator it is |
| Registry.NamesHas | pkg/adaptivecards/adaptivecards.go:41-102 | the name of each of the first `n` registrations is among the names they use |
| Registry.NamesGrow | pkg/adaptivecards/adaptivecards.go:41-102 | a later registration only adds names, it never removes one |
| Registry.NamesOnly | pkg/adaptivecards/adaptivecards.go:41-102 | every name among the first `n` is the name of one of the first `n` registrations |
| Registry.ApplyKeys | pkg/adaptivecards/unmarshal.go:35-37 | after the first `n` registrations the registry holds exactly their names |
| Registry.StandardKeys | pkg/adaptivecards/adaptivecards.go:41-102 | a name is in the registry `init` builds exactly when one of its 48 registrations uses it |
| Registry.CanonicalInjective | pkg/adaptivecards/unmarshal.go:45-54 | in such a registry no type is registered under two names, so the reverse lookup has at most one answer |
| Registry.NameOf | pkg/adaptivecards/unmarshal.go:45-54 | a name found maps to the type; on a canonical registry no name is found only when no key maps to the type |
| Registry.NameOfRegistered | pkg/adaptivecards/unmarshal.go:45-54 | on a canonical registry the lookup returns exactly the name the type is registered under |
| Registry.FindMapKey | pkg/adaptivecards/unmarshal.go:45-54 | the scan returns a key mapped to the value, and returns nothing exactly when no key is |
| Registry.FindMapKeyCanonical | pkg/adaptivecards/unmarshal.go:45-54 | on a canonical registry any result the scan may return, in whatever order it visits the keys, is `NameOf` |
| Registry.TypeRegistry.constructor | pkg/adaptivecards/unmarshal.go:32 | the registry starts empty |
| Registry.TypeRegistry.RegisterType | pkg/adaptivecards/unmarshal.go:35-37 | the name's entry is inserted or overwritten and nothing else changes |
| Registry.TypeRegistry.Init | pkg/adaptivecards/adaptivecards.go:41-102 | the 48 registrations, in source order, leave exactly the standard registry |
| Schema.Fields | pkg/adaptivecards/adaptivecards.go:114-2281 | the field tables of `AdaptiveCard` and the twenty other types `Fields` names (Go name, `json` and `version` tags, type and embedding, in declaration order), with `AllowExpand` keeping its `verson` key; every other type has none |
| Schema.Discriminator | pkg/adaptivecards/adaptivecards.go:41-102 | the name `init` registers each type under, and none for a type it does not register |
| Schema.Marker | pkg/adaptivecards/adaptivecards.go:215-2281 | the marker method (`isElement`, `isAction`, `isReference`, `isRichTextInline` or `isLayout`) a type declares, hence the interface it implements; no type implements `ActionData` |
| Schema.DiscriminatorInputRating | pkg/adaptivecards/adaptivecards.go:65 | `InputRating` is the only type registered as `"Input.Rating"` |
| Schema.ImageAllowExpandDeclared | pkg/adaptivecards/adaptivecards.go:583 | field 1 of `Image` is `AllowExpand` with the keys `json` and `verson`, under a name no other field of `Image` has |
| Schema.TeamsAllowExpandDeclared | pkg/adaptivecards/adaptivecards.go:618 | field 0 of `TeamsImageProperties` is `AllowExpand` as declared, under a name no other field has |
| Schema.AsWrittenUntagged | pkg/adaptivecards/adaptivecards.go:583 | `Tag.Get("version")` on the declared `AllowExpand` tag is empty |
| Schema.FirstInOrder | pkg/adaptivecards/unmarshal.go:565-574 | an interface of the table order that the type implements, with none before it implemented, is the one chosen |
| Schema.NoneInOrder | pkg/adaptivecards/unmarshal.go:590-604 | a type implementing none of the table's interfaces gets no entry |
| Schema.FirstImplemented | pkg/adaptivecards/unmarshal.go:438-493 | the interface chosen is one the type implements, and none is chosen only when it implements none of the six |
| Values.IsZero | pkg/adaptivecards/version.go:189-205 | `isZeroValue` (and `isEmptyValue`, unmarshal.go:258-278, on the same kinds): `""`, `false`, `0`, a nil or empty slice or map, a nil pointer or interface; a struct is never zero |
| Values.ZeroOf | pkg/adaptivecards/unmarshal.go:634-653 | the zero value of a field type is nil, `""`, `false` or `0` |
| Values.ZeroStruct | pkg/adaptivecards/unmarshal.go:634-653 | a freshly allocated struct has the type and one value per field of its table |
| Values.ZeroIsZero | pkg/adaptivecards/version.go:189-205 | the zero value of every non-struct type counts as zero for `isZeroValue` / `isEmptyValue`, and a struct never does |
| Values.InterfaceHoldingEmptyString | pkg/adaptivecards/version.go:189-205 | an interface holding `""` is not zero, though a string field holding `""` is |
| Marshal.ParseJsonTagIsFirstPart | pkg/adaptivecards/unmarshal.go:281-290 | the name `parseJSONTag` extracts is the first comma-separated part of the tag and holds no comma |
| Marshal.TagKeySplit | pkg/adaptivecards/unmarshal.go:233-242 | the encoder's key is the first part of `strings.Split(tag, ",")` and its `omitempty` flag is a second part equal to `omitempty`; the key agrees with `parseJSONTag` |
| Marshal.Entry | pkg/adaptivecards/unmarshal.go:233-250 | a plain field contributes at most one map entry |
| Marshal.EntryOmitted | pkg/adaptivecards/unmarshal.go:233-250 | a field is left out exactly when its tag is absent or `-`, or it is `omitempty` and empty; otherwise its entry is keyed by the tag name and holds the field's value |
| Marshal.GroupOf | pkg/adaptivecards/unmarshal.go:195-202 | an embedded field contributes a group only through a non-nil pointer to a struct (or a struct) |
| Marshal.MapOfKeys | pkg/adaptivecards/unmarshal.go:163-250 | the encoder's map holds exactly the initial keys and the keys of the entries assigned |
| Marshal.MapOfLast | pkg/adaptivecards/unmarshal.go:227-250 | a key's value is that of its last assignment (a later field overwrites an earlier one with the same key) |
| Marshal.MapOfUntouched | pkg/adaptivecards/unmarshal.go:163-250 | a key no field assigns keeps its initial value |
| Marshal.CollectedHasType | pkg/adaptivecards/unmarshal.go:161-164 | the map holds `"type"`, and it is the registered name unless some field is keyed `"type"` |
| Marshal.Encode | pkg/adaptivecards/unmarshal.go:150-153 | the only failure encoding a value can report is an unregistered type |
| Marshal.EncodeGridWidth | pkg/adaptivecards/adaptivecards.go:2204-2206 | encoding a width fails only when its stored value does |
| Marshal.EncodeTarget | pkg/adaptivecards/adaptivecards.go:1424-1432 | encoding a target fails only for an unregistered type |
| Marshal.SmartMarshal | pkg/adaptivecards/unmarshal.go:142-156 | `SmartMarshalFromJSON` fails only for an unregistered type |
| Marshal.Marshalled | pkg/adaptivecards/unmarshal.go:161-255 | for a struct of its own type, `marshalWithType` fails only for an unregistered nested type |
| Marshal.PutEntry | pkg/adaptivecards/unmarshal.go:233-250 | one plain field's step yields the map with that field's entry assigned |
| Marshal.PutGroup | pkg/adaptivecards/unmarshal.go:204-228 | the inner loop yields the map with every group field's entry assigned in order |
| Marshal.PutField | pkg/adaptivecards/unmarshal.go:194-250 | one field's step: an embedded group is flattened, another field adds its entry |
| Marshal.PutFields | pkg/adaptivecards/unmarshal.go:185-251 | the outer loop yields the map with every field's entries assigned in order |
| Marshal.MarshalWithType | pkg/adaptivecards/unmarshal.go:161-255 | the imperative `marshalWithType` computes exactly `Marshalled` |
| Marshal.EncodeObjectMember | pkg/adaptivecards/unmarshal.go:253-254 | each member of the encoded object is the encoding of the map's value under that key |
| Marshal.MarshalledHasType | pkg/adaptivecards/unmarshal.go:161-255 | whatever the value, a successful `marshalWithType` output is an object holding `"type"` |
| Marshal.MarshalledTypeValue | pkg/adaptivecards/unmarshal.go:163-164 | for a struct with no field keyed `"type"`, the `"type"` member is the name passed in |
| Marshal.NilPointerJustType | pkg/adaptivecards/unmarshal.go:171-174 | a nil pointer, or a pointer to one, encodes as exactly `{"type": name}` |
| Marshal.NonStructRejected | pkg/adaptivecards/unmarshal.go:179-182 | anything that is not a struct after following pointers is rejected |
| Marshal.GroupFlattened | pkg/adaptivecards/unmarshal.go:194-231 | a non-nil embedded group's fields are assigned at the top level of the map, not nested under a key |
| Marshal.EncodeSmart | pkg/adaptivecards/adaptivecards.go:382-387 | a type whose `MarshalJSON` calls `SmartMarshalFromJSON` is encoded through the registry |
| Marshal.EncodeTargetDispatch | pkg/adaptivecards/adaptivecards.go:1424-1432 | `TargetElement` is encoded by its own `MarshalJSON` |
| Marshal.EncodeGridWidthDispatch | pkg/adaptivecards/adaptivecards.go:2204-2206 | `GridColumnWidth` is encoded by its own `MarshalJSON` |
| Marshal.UnregisteredCannotEncode | pkg/adaptivecards/unmarshal.go:150-153 | in a canonical registry, a registry-encoded type without a discriminator is held under no name and cannot be encoded |
| Marshal.UnregisteredSmartTypes | pkg/adaptivecards/adaptivecards.go:41-102 | each of the 15 types of `NeverRegistered` (`CaptionSource`, `MediaSource`, `CompoundButton`, `ProgressBar`, `ProgressRing`, `TableColumnDefinition`, `TableRow`, `TableCell`, `InputChoice`, `DataQuery`, `Refresh`, `TokenExchangeResource`, `Authentication`, `Metadata`, `Mention`) encodes through the registry and has no discriminator |
| Marshal.NeverRegisteredAbsent | pkg/adaptivecards/adaptivecards.go:41-102 | no name of the registry `init` builds is bound to one of those 15 types |
| Marshal.StandardUnregisteredFails | pkg/adaptivecards/unmarshal.go:150-153 | with the registry `init` builds, encoding any of those 15 types fails as unregistered |
| Marshal.RegisteredEncodes | pkg/adaptivecards/unmarshal.go:142-156 | a registered type encodes as `marshalWithType` under the name it is registered under |
| Marshal.GridWidthEncodesValue | pkg/adaptivecards/adaptivecards.go:2204-2206 | a width encodes as its stored value, with neither `"type"` nor a wrapper object |
| Marshal.TargetEncodesId | pkg/adaptivecards/adaptivecards.go:1426-1428 | a target whose `IsVisible` is nil encodes as the bare string of its element id |
| Marshal.TargetObjectFormFails | pkg/adaptivecards/adaptivecards.go:1424-1432 | a target with `IsVisible` set is encoded through the registry; a canonical registry cannot hold `TargetElement`, so it fails |
| Marshal.StandardTargetObjectFails | pkg/adaptivecards/adaptivecards.go:1424-1432 | with the registry `init` builds, a target with `IsVisible` set cannot be encoded |
| Unmarshal.DecodeGridWidth | pkg/adaptivecards/adaptivecards.go:2211-2235 | `GridColumnWidth.UnmarshalJSON`: a whole number becomes an int, a string ending in `px` is kept, a fraction, another string or any other kind is its own error |
| Unmarshal.DecodeTarget | pkg/adaptivecards/adaptivecards.go:1436-1446 | `TargetElement.UnmarshalJSON`: a string sets the id and keeps `IsVisible`, null changes nothing, anything else recurses without end |
| Unmarshal.SmartField | pkg/adaptivecards/unmarshal.go:721-774 | one field of `SmartUnmarshalJSON`: an embedded pointer group decoded only when one of its keys is present, any other field decoded by kind when its key is present and kept otherwise |
| Unmarshal.SliceField | pkg/adaptivecards/unmarshal.go:656-669 | a slice field: null is empty, items that all pass `ValidateType` are decoded one by one, otherwise an interface element type goes through `unmarshalMessages` (lines 557-580) |
| Unmarshal.InterfaceField | pkg/adaptivecards/unmarshal.go:671-696 | an interface field: `fallback` through `unmarshalFallback`, whose nil result cannot be stored; any other through `unmarshalSingleField` |
| Unmarshal.Fallback | pkg/adaptivecards/unmarshal.go:293-316 | a string (null as `""`) is a `FallbackOption`; otherwise the first of Element and Action that decodes |
| Unmarshal.Message | pkg/adaptivecards/unmarshal.go:387-402 | `dynamicUnmarshaling`: read `"type"`, look it up, decode that type, and keep it only if a pointer to it implements the interface |
| Unmarshal.Messages | pkg/adaptivecards/unmarshal.go:320-336 | `unmarshalMessages` over the first `n` items: unknown discriminators skipped, any other error stops the loop with its index |
| Unmarshal.DetectType | pkg/adaptivecards/unmarshal.go:113-117 | the only failure of reading the discriminator is a detection failure |
| Unmarshal.ValidateTypeMismatch | pkg/adaptivecards/unmarshal.go:113-135 | for a registered struct target, a readable payload is rejected exactly when its `"type"` is non-empty and differs from the target's name, with an `Invalid` error naming both |
| Unmarshal.MissingTypeAccepted | pkg/adaptivecards/unmarshal.go:131-134 | an object without `"type"` is accepted for any registered target |
| Unmarshal.InterfaceRejected | pkg/adaptivecards/unmarshal.go:119-122 | an interface target is always rejected |
| Unmarshal.UnregisteredRejected | pkg/adaptivecards/unmarshal.go:127-130 | a target the registry does not hold is always rejected |
| Unmarshal.TypeErrorsNone | pkg/adaptivecards/unmarshal.go:92-108 | `ValidateTypes` reports nothing exactly when every item passes `ValidateType` |
| Unmarshal.TypeErrorsIndexed | pkg/adaptivecards/unmarshal.go:92-108 | every error reported is the rejection of the item at its index, and every rejected item is reported |
| Unmarshal.ValidateTypes | pkg/adaptivecards/unmarshal.go:92-108 | the loop collects exactly one indexed error per rejected item, in order |
| Unmarshal.MessagesFilter | pkg/adaptivecards/unmarshal.go:320-336 | `unmarshalMessages` succeeds exactly when every item decodes or has an unknown discriminator, and then returns the decoded items in their order, never more than given |
| Unmarshal.MessagesAbort | pkg/adaptivecards/unmarshal.go:320-336 | a failure is the first item that neither decodes nor is unknown, with that item's index and error |
| Unmarshal.MessagesStop | pkg/adaptivecards/unmarshal.go:320-336 | once the loop has failed, later items do not change its result |
| Unmarshal.SliceItemsStop | pkg/adaptivecards/unmarshal.go:410-416 | once `unmarshalSlice` has failed, later items do not change its result |
| Unmarshal.SliceItemsAll | pkg/adaptivecards/unmarshal.go:404-418 | `unmarshalSlice` succeeds exactly when every item decodes as the element type, and then holds one value per item, item `k`'s at index `k` |
| Unmarshal.SliceItemsAbort | pkg/adaptivecards/unmarshal.go:410-414 | a failure is the first item that does not decode, with that item's index and error |
| Unmarshal.UnmarshalSlice | pkg/adaptivecards/unmarshal.go:404-418 | the imperative loop computes exactly `SliceItems` |
| Unmarshal.FindUnmarshaler | pkg/adaptivecards/unmarshal.go:565-574 | the imperative scan of the dispatch table, in the order of `sliceUnmarshalers` (and `singleUnmarshalers`, lines 590-604), computes exactly `FirstImplemented` |
| Unmarshal.UnmarshalMessages | pkg/adaptivecards/unmarshal.go:320-336 | the imperative loop computes exactly `Messages` |
| Unmarshal.MessageUnknownUntouched | pkg/adaptivecards/unmarshal.go:340-352 | an unknown discriminator leaves `unmarshalMessage`'s target as it was and reports nothing |
| Unmarshal.ActionDataNeverDecodes | pkg/adaptivecards/unmarshal.go:387-402 | no payload decodes as an `ActionData`, so a successful slice of them is empty |
| Unmarshal.NoActionData | pkg/adaptivecards/adaptivecards.go:1453 | no struct of the package (or pointer to one) implements `ActionData` |
| Unmarshal.FallbackString | pkg/adaptivecards/unmarshal.go:293-316 | a JSON string is a `FallbackOption`, never tried as an Element or an Action |
| Unmarshal.FallbackElementFirst | pkg/adaptivecards/unmarshal.go:293-316 | a payload that decodes as an Element is that Element |
| Unmarshal.FallbackThenAction | pkg/adaptivecards/unmarshal.go:293-316 | a payload that fails as an Element for a reason other than an unknown discriminator is the Action it decodes as, or a fallback error |
| Unmarshal.InputRatingNotAnElement | pkg/adaptivecards/unmarshal.go:387-402 | in any registry binding `"Input.Rating"` to `InputRating`, and with a table giving `InputRating` no fields, decoding that payload as an Element fails as not implementing it |
| Unmarshal.InputRatingStopsElements | pkg/adaptivecards/unmarshal.go:320-336 | in any such registry, again with `InputRating` given no fields, in a sequence of Elements an `Input.Rating` stops the decoding with an indexed error instead of being skipped |
| Unmarshal.StandardInputRating | pkg/adaptivecards/adaptivecards.go:65 | the registry `init` builds holds `"Input.Rating"`, bound to `InputRating` |
| Unmarshal.FieldsInputRatingStops | pkg/adaptivecards/unmarshal.go:320-336 | with the package's own tables, in any registry binding `"Input.Rating"` to `InputRating`, `[{"type": "Input.Rating"}]` decoded as Elements fails at item 0 |
| Unmarshal.StandardInputRatingStops | pkg/adaptivecards/unmarshal.go:320-336 | with the package's own tables and registry, `[{"type": "Input.Rating"}]` decoded as Elements fails at item 0 as not implementing Element |
| Unmarshal.EmptyStructDecodes | pkg/adaptivecards/unmarshal.go:786-813 | a registry-decoded type without fields decodes from any object as its empty value |
| Unmarshal.HasEmbeddedFields | pkg/adaptivecards/unmarshal.go:611-621 | the scan answers whether some field of the group is keyed in the object |
| Unmarshal.DecodeField | pkg/adaptivecards/unmarshal.go:721-774 | the imperative field step computes exactly `SmartField`; the embedded-group branch is imperative, and every other field is decoded by the function `SmartField` |
| Unmarshal.GroupFieldSteps | pkg/adaptivecards/unmarshal.go:634-653 | an embedded group is allocated and decoded exactly when one of its keys is present, and left as it was otherwise |
| Unmarshal.DecodeFields | pkg/adaptivecards/unmarshal.go:806-810 | the imperative field loop computes exactly `SmartRun`: the fields decoded and the first error |
| Unmarshal.SmartUnmarshalJSON | pkg/adaptivecards/unmarshal.go:786-813 | the target's new value and the error are exactly `SmartUnmarshal` of the old value |
| Unmarshal.SmartRunStops | pkg/adaptivecards/unmarshal.go:806-810 | once a field has failed, the remaining fields are not decoded |
| Unmarshal.FieldUntouched | pkg/adaptivecards/unmarshal.go:721-774 | a field the payload says nothing about keeps its value and reports nothing |
| Unmarshal.RunKeepsUntouched | pkg/adaptivecards/unmarshal.go:806-810 | the field loop keeps the value of every field the payload says nothing about |
| Unmarshal.RunAllUntouched | pkg/adaptivecards/unmarshal.go:806-810 | when the payload says nothing about any field, the loop changes nothing and cannot fail |
| Unmarshal.AbsentFieldsKept | pkg/adaptivecards/unmarshal.go:786-813 | `SmartUnmarshalJSON` leaves every field whose key is absent as it was |
| Unmarshal.NullKeepsTarget | pkg/adaptivecards/unmarshal.go:799-803 | decoding `null` leaves the target as it was and reports nothing |
| Unmarshal.SmartUnmarshalRejects | pkg/adaptivecards/unmarshal.go:786-803 | a non-struct target, or a payload that is neither an object nor null, is rejected before any field is written |
| Unmarshal.GroupAllocatedIffPresent | pkg/adaptivecards/unmarshal.go:634-653 | a nil embedded group stays nil exactly when none of its keys is present, and is otherwise allocated with one value per field |
| Unmarshal.GroupFieldsStartZero | pkg/adaptivecards/unmarshal.go:634-653 | every field of an allocated group that the payload says nothing about is at its zero value |
| Unmarshal.UnmarshalGridColumnWidth | pkg/adaptivecards/adaptivecards.go:2211-2235 | the receiver is written only when the payload is accepted |
| Unmarshal.GridWidthDecodeCases | pkg/adaptivecards/adaptivecards.go:2211-2235 | a width accepts an integer, a whole number (kept as that integer) or a string ending in `px`; a fraction, another string or any other kind is the matching error |
| Unmarshal.GridWidthDecodeEncode | pkg/adaptivecards/adaptivecards.go:2204-2235 | a decoded width encodes back to its payload, a whole fraction coming back as the integer |
| Unmarshal.GridWidthEncodeDecode | pkg/adaptivecards/adaptivecards.go:2204-2235 | an integer width or a `px` string survives encoding then decoding |
| Unmarshal.DecodeGridWidthDispatch | pkg/adaptivecards/adaptivecards.go:2211-2235 | a `GridColumnWidth` is decoded by its own `UnmarshalJSON` |
| Unmarshal.UnmarshalTargetElement | pkg/adaptivecards/adaptivecards.go:1436-1446 | the receiver is written only when the payload is accepted |
| Unmarshal.TargetStringForm | pkg/adaptivecards/adaptivecards.go:1436-1440 | a string sets the element id and leaves `IsVisible` as it was |
| Unmarshal.TargetObjectDiverges | pkg/adaptivecards/adaptivecards.go:1441-1445 | any payload other than a string or null makes the method call itself on the same payload without end |
| Unmarshal.TargetRoundTrip | pkg/adaptivecards/adaptivecards.go:1424-1446 | a target with `IsVisible` nil encodes and decodes back to itself, and a bare id decodes and encodes back to itself |
| Validation.Requirements | pkg/adaptivecards/version.go:125-187 | what `validateStruct` visits: every non-zero field with a version tag, under the name it is reported by, through pointers, structs and slice items |
| Validation.Select | pkg/adaptivecards/version.go:157-166 | the requirements whose tag parses as a version the card does not support, each turned into its error |
| Validation.QualifyUnder | pkg/adaptivecards/version.go:151-154 | below a non-empty prefix a field is named `prefix.Field`, inside the prefix |
| Validation.Index | pkg/adaptivecards/version.go:180 | the name of a slice item `Field[j]` is inside the field's name |
| Validation.Own | pkg/adaptivecards/version.go:156-158 | a field states a requirement exactly when it has a version tag and a non-zero value, and then names itself and its tag |
| Validation.ValidateStruct | pkg/adaptivecards/version.go:125-187 | the imperative walk reports exactly the selection of the walk's requirements for the card version |
| Validation.ValidateFields | pkg/adaptivecards/version.go:142-184 | the field loop reports exactly the selection of the struct's requirements |
| Validation.ValidateNextField | pkg/adaptivecards/version.go:142-185 | one turn of the field loop: the errors so far, then those of field `i`, give the selection of the first `i + 1` fields' requirements |
| Validation.ValidateField | pkg/adaptivecards/version.go:156-183 | one field's body reports its own check, then the selection of what is found below it |
| Validation.ValidateItems | pkg/adaptivecards/version.go:177-182 | the item loop reports exactly the selection of the items' requirements |
| Validation.ValidateVersion | pkg/adaptivecards/version.go:113-123 | the result is exactly `Violations` |
| Validation.CardVersionField | pkg/adaptivecards/adaptivecards.go:167 | the card's field table has its string `Version` field at the index the card version is read from |
| Validation.Validate | pkg/adaptivecards/adaptivecards.go:206-208 | a card is validated as a struct against its own `Version` field |
| Validation.SelectMembers | pkg/adaptivecards/version.go:157-166 | an error is reported exactly for a requirement whose tag parses as a version the card does not support, and it carries the card version |
| Validation.ViolationsMonotone | pkg/adaptivecards/version.go:157-166 | a newer card version reports no field that an older one does not |
| Validation.BadVersionSingleError | pkg/adaptivecards/version.go:114-120 | a card version that does not parse gives exactly one error, `version`, with both versions zero |
| Validation.NotWalked | pkg/adaptivecards/version.go:129-138 | a nil pointer, an interface or a value that is not a struct yields nothing |
| Validation.RequirementsUnder | pkg/adaptivecards/version.go:151-182 | every name found below a prefix is strictly inside it |
| Validation.FieldAtOrUnder | pkg/adaptivecards/version.go:151-182 | a field's requirements are its own one under its name, or named strictly inside it |
| Validation.TopLevelNamed | pkg/adaptivecards/version.go:151-167 | at the top of the walk, a requirement named after a field is that field's own one and only that |
| Validation.TopLevelViolation | pkg/adaptivecards/version.go:142-167 | a top-level field is reported with required version `req` exactly when its tag parses as `req`, its value is non-zero and the card version does not support `req` |
| Validation.FieldIncluded | pkg/adaptivecards/version.go:142-184 | everything found for one field of a struct is found for the struct |
| Validation.ItemIncluded | pkg/adaptivecards/version.go:177-182 | everything found for one item of a slice is found for the slice |
| Validation.PointerFieldNaming | pkg/adaptivecards/version.go:173-176 | what a field of a pointed-to struct states is found under `Parent.Field` (`Common.Field` for the embedded group) |
| Validation.SliceItemNaming | pkg/adaptivecards/version.go:177-182 | what a field of a pointer slice item states is found under `Field[j].Inner` |
| Validation.SliceStructItemNaming | pkg/adaptivecards/version.go:177-182 | the same for a slice of struct values (`[]Column`, `[]Fact`, `[]TargetElement`, `[]GridArea`) |
| Validation.UntaggedNeverReported | pkg/adaptivecards/version.go:156-158 | a top-level field without a `version` tag is never reported, whatever it holds |
| Validation.TaggedReported | pkg/adaptivecards/version.go:156-166 | a top-level field tagged `version:"1.2"` is reported on a 1.0 card exactly when it is not zero |
| Validation.AllowExpandNeverChecked | pkg/adaptivecards/adaptivecards.go:583 | `ValidateVersion` on an `Image` as declared never reports `AllowExpand`, whatever it holds and whatever the card version |
| Validation.AllowExpandCorrectedChecked | pkg/adaptivecards/adaptivecards.go:583 | with the intended tag, `ValidateVersion` on an `Image` against "1.0" reports `AllowExpand` as needing 1.2 exactly when it is set |
| Validation.TeamsAllowExpandNeverChecked | pkg/adaptivecards/adaptivecards.go:618 | the same for `TeamsImageProperties` as declared: `AllowExpand` is never reported |
| Validation.TeamsAllowExpandCorrectedChecked | pkg/adaptivecards/adaptivecards.go:618 | with the intended tag, `TeamsImageProperties.AllowExpand` is reported on a 1.0 card exactly when it is set |
| Server.CheckDuplicateRequestPath | cmd/server/main.go:280-289 | no error exactly when all request paths are distinct; an error names the path of the first route whose path was used before |
| Server.FirstDuplicateUnique | cmd/server/main.go:280-289 | there is at most one first duplicate, so the path reported is determined by the routes |
| Server.NotDistinctHasFirstDuplicate | cmd/server/main.go:280-289 | routes that are not all distinct always have a first duplicate |
| Server.DuplicateExamples | cmd/server/main_test.go:247-275 | the empty list is distinct, and in `/path1, /path2, /path1` the third route is the first duplicate |
| Server.ExtractWebhook | cmd/server/main.go:293-317 | every webhook extracted starts with `https://` |
| Server.ExtractFromPath | cmd/server/main.go:297-305 | a non-empty rest after the prefix is the webhook, whatever the header says |
| Server.ExtractErrors | cmd/server/main.go:303-314 | with nothing after the prefix, the request fails exactly when the header is empty or not a `webhook` bearer, and the "neither" error exactly when it is empty |
| Server.ExtractFromHeader | cmd/server/main.go:307-316 | the header `webhook <url>` gives `https://<url>`, and `webhookX` passes the bearer check but is kept whole |
| Server.ValidateWebhook | cmd/server/main.go:94-114 | every error is either the `https://` error or the unexpected-format error |
| Server.ValidateNeedsHttps | cmd/server/main.go:95-98 | the `https://` error is given exactly for a URL not starting with `https://`, whatever the webhook type |
| Server.ValidateVerdicts | cmd/server/main.go:100-113 | on an `https://` URL: Workflow passes exactly when its pattern matches; O365 exactly when its pattern matches or the legacy prefix starts the rest; other types always; a failure is the unexpected-format error |
| Server.LegacyAccepted | cmd/server/main.go:92-102 | a legacy connector URL passes for O365 whatever the pattern says |
| Server.ExtractedIsHttps | cmd/server/main.go:293-317 | a webhook taken from a request never fails the `https://` check |

## Left out

- JSON text itself.
  - The lexer and printer of `encoding/json` are not modelled. Payloads are value trees.
  - `encoding/json`'s case-insensitive key matching is not modelled. Keys match exactly.
  - Numbers are exact: integers or reals, with no float64 rounding.
- Go reflection over arbitrary types.
  - Only 21 field tables are modelled. They are `AdaptiveCard`, `Common`, `CommonActionProperties`, `ColumnSet`, `Column`, `Container`, `FactSet`, `Fact`, `TextBlock`, `Image`, `TeamsImageProperties`, `ActionOpenURL`, `ActionSubmit`, `ActionToggleVisibility`, `TargetElement`, `BackgroundImage`, `LayoutFlow`, `LayoutAreaGrid`, `GridArea`, `GridColumnWidth` and `ThemedURL`.
  - Every other type has an empty table. That includes the other elements, inputs, inline runs, actions and layouts, and `InputRating`.
  - Six types referenced from the modelled tables have empty tables: the card's `Authentication`, `Metadata`, `Refresh`, `Resources` and `TeamsCardProperties` (its `MsTeams`), and `ActionSubmit`'s `TeamsSubmitActionProperties`.
  - Below a type with an empty table, neither the validator nor the codec sees a field.
  - So version tags there are not walked. For example, `Refresh.Expires` (`version:"1.6"`, adaptivecards.go:1915) is not reported on a 1.5 card, though Go's `validateStruct` reports it.
  - Unexported fields do not occur in the tables. Named string types are plain strings, and `float64` fields are integers.
- The per-item and per-field decoders are functions: `Unmarshal.Decode`, `SmartField`, `SliceField`, `InterfaceField`, `Message` and `Fallback`. The loops that call them are methods. Decoding is modelled as a value computed from the payload, not as writes through `reflect` into a target.
- `Unmarshal.StandardInputRatingStops` relies on `Schema.Fields` giving `InputRating` no fields (the source declares about a dozen, adaptivecards.go:1755-1769). The payload `{"type": "Input.Rating"}` holds none of their keys, so with the declared fields it would decode the same way before failing. `InputRatingNotAnElement` and `InputRatingStopsElements` assume the empty table too, because a payload holding one of those keys could fail in the decode first.
- `Unmarshal.SmartField`: an embedded field inside an embedded group is left alone. No group of the package embeds another one.
- `Unmarshal.Decode`: a partial decode inside `encoding/json` is not kept. It fails as a whole.
- `Unmarshal.InterfaceField`: storing the fallback's nil result is modelled as the error `Unspecified`, not as the panic it causes in `reflect`.
- `Unmarshal.SliceField`: an assignment `reflect.Value.Set` refuses is modelled as the error `Panic` that no caller recovers from. The panic itself is not modelled.
- `Unmarshal.DecodeTarget`: the endless self-recursion of `TargetElement.UnmarshalJSON` on an object payload is modelled as the error `Diverges`. The stack overflow itself is not modelled.
- `Server.ExtractWebhook`: `len(URL.Query()) > 0` is taken as the boolean `hasQuery`. The query parsing of `net/url` is not modelled.
- `Server.ValidateWebhook`: the two regular expressions are parameters, known only as predicates. Regular-expression matching is not modelled.
- The `Authorization` header is one string. HTTP header canonicalisation and multiple values are not modelled.
- Integer widths:
  - Versions are `Int64`, the `strconv.Atoi` range.
  - Other integers are unbounded.
  - No 32-bit wrap-around is modelled; no field of the modelled tables needs it.
- Concurrency. The registry is written only during `init`, and the model does no concurrent access.
- Logging in `init` is not modelled.
- I/O is not modelled:
  - the HTTP server;
  - the Teams client;
  - the card templates and converters;
  - configuration loading.
- `MustParseVersion` panics on a bad version. That is outside the model.
- `Registry.NameOf`: it looks up only the type's discriminator, where `FindMapKey` returns any key bound to the type. The two agree on a canonical registry (`Registry.FindMapKeyCanonical`), such as the one `init` builds. A type registered under another name is not found.
- `Marshal.SmartMarshal`: the encoder, and every law about it, is stated for canonical registries, through `NameOf`.
- `Marshal.UnregisteredCannotEncode`: only for a canonical registry. A registry that binds such a type under some name would encode it.
- `Marshal.TargetObjectFormFails`: only for a canonical registry, for the same reason.
- `Validation.FieldIncluded`, `PointerFieldNaming`, `SliceItemNaming` and `SliceStructItemNaming` state naming one level at a time. Deeper nesting follows by composing them, and no single lemma states it.

## Findings

| source | as written | input that shows it | evidently intended | confidence | as-written member | corrected member |
|---|---|---|---|---|---|---|
| pkg/adaptivecards/adaptivecards.go:583 | `Image.AllowExpand` (and `TeamsImageProperties.AllowExpand` at line 618) is tagged `verson:"1.2"`, so `Tag.Get("version")` is empty and the field is never checked | `ValidateVersion(Image{AllowExpand: true}, "1.0")` returns no error | the tag `version:"1.2"`, so that call reports `AllowExpand` as needing 1.2 | not executed | Validation.AllowExpandNeverChecked | Validation.AllowExpandCorrectedChecked |
