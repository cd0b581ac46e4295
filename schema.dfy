/**
 * The static shape of the Adaptive Card types: which Go types exist, which
 * polymorphic interface each one implements, how each one is marshalled, and
 * the ordered field table (Go name, struct tags, field type) of the types that
 * are modelled field by field. Go reflection over struct types is replaced by
 * these tables.
 */
module Schema {
  import opened Wrappers

  /** The polymorphic interfaces, each given by one marker method. */
  datatype Category = Element | Action | ActionData | Reference | Layout | RichTextInline

  /** The order in which the decoder tries the interfaces (both of its dispatch tables use it). */
  const CategoryOrder: seq<Category> := [Element, Action, ActionData, Reference, Layout, RichTextInline]

  /** The struct types of the package (registered ones first, then the unregistered ones). */
  datatype TypeName =
    | AdaptiveCard
    | ActionSet | Badge | CodeBlock | Container | ColumnSet | Column | FactSet | Icon | Image
    | ImageSet | Media | Rating | RichTextBlock | Table | TextBlock
    | InputChoiceSet | InputDate | InputNumber | InputRating | InputText | InputTime | InputToggle
    | TextRun | CitationRun | IconRun | ImageRun
    | ActionExecute | ActionInsertImage | ActionOpenURL | ActionOpenURLDialog | ActionPopover
    | ActionResetInputs | ActionRunCommands | ActionShowCard | ActionSubmit | ActionToggleVisibility
    | ImBackSubmitActionData | MessageBackSubmitActionData | InvokeSubmitActionData
    | TaskFetchSubmitActionData | SigninSubmitActionData
    | AdaptiveCardReference | DocumentReference
    | LayoutStack | LayoutFlow | LayoutAreaGrid
    | StringResource
    // types that call SmartMarshalFromJSON but are never registered
    | CaptionSource | MediaSource | CompoundButton | ProgressBar | ProgressRing
    | TableColumnDefinition | TableRow | TableCell | InputChoice | DataQuery
    | Refresh | TokenExchangeResource | Authentication | Metadata | Mention
    // plain structs and the two types with hand-written codecs
    | Common | CommonActionProperties | Fact | BackgroundImage | TeamsImageProperties
    | TeamsCardProperties | TeamsSubmitActionProperties | Resources | GridArea | ThemedURL
    | TargetElement | GridColumnWidth

  /**
   * Go types as far as the codecs tell them apart. Every named string type of
   * the package (Spacing, ImageFit, ...) is `TString`; `Requires` and
   * `map[string]string` are `TMap`; `TIface(None)` is `any`.
   */
  datatype GoType =
    | TString
    | TBool
    | TInt
    | TMap
    | TPtr(elem: GoType)
    | TSlice(elem: GoType)
    | TIface(cat: Option<Category>)
    | TStruct(name: TypeName)

  /** A field's declared type: never a struct held by value (no field of the package is one). */
  type FieldType = t: GoType | !t.TStruct? witness TString

  datatype Tag = Tag(key: string, value: string)

  /** A struct field: Go name, struct tag, declared type, and whether it is embedded (anonymous). */
  datatype Field = Field(name: string, tags: seq<Tag>, ty: FieldType, embedded: bool)

  /** `reflect.StructTag.Get`: the value of the first entry with that key, or "". */
  function TagGet(tags: seq<Tag>, key: string): (v: string)
  {
    if tags == [] then ""
    else if tags[0].key == key then tags[0].value
    else TagGet(tags[1..], key)
  }

  function JsonTag(f: Field): string { TagGet(f.tags, "json") }

  function VersionTag(f: Field): string { TagGet(f.tags, "version") }

  /** A field with tag `json:"<json>" version:"<version>"`. */
  function F(name: string, json: string, version: string, ty: FieldType): Field
  {
    Field(name, [Tag("json", json), Tag("version", version)], ty, false)
  }

  /** A field with tag `json:"<json>"` only. */
  function F0(name: string, json: string, ty: FieldType): Field
  {
    Field(name, [Tag("json", json)], ty, false)
  }

  /** An embedded `*Group` field. */
  function Embed(group: TypeName, goName: string): Field
  {
    Field(goName, [], TPtr(TStruct(group)), true)
  }

  const Str: FieldType := TString
  const PStr: FieldType := TPtr(TString)
  const PBool: FieldType := TPtr(TBool)
  const Any: FieldType := TIface(None)
  const AnAction: FieldType := TIface(Some(Action))

  /** The marker method a type has, if any (every marker has a value receiver). */
  function Marker(t: TypeName): Option<Category>
  {
    match t
    case ActionSet | Badge | CodeBlock | Container | ColumnSet | Column | CompoundButton | FactSet
      | Icon | Image | ImageSet | Media | ProgressBar | ProgressRing | Rating | RichTextBlock | Table
      | TextBlock | InputChoiceSet | InputDate | InputNumber | InputText | InputTime | InputToggle
      => Some(Element)
    case TextRun | CitationRun | IconRun | ImageRun => Some(RichTextInline)
    case ActionExecute | ActionInsertImage | ActionOpenURL | ActionOpenURLDialog | ActionPopover
      | ActionResetInputs | ActionRunCommands | ActionShowCard | ActionSubmit | ActionToggleVisibility
      => Some(Action)
    case AdaptiveCardReference | DocumentReference => Some(Reference)
    case LayoutStack | LayoutFlow | LayoutAreaGrid => Some(Layout)
    case _ => None
  }

  /** `reflect.Type.Implements`: an interface implements itself; a struct or pointer to it implements its marker's interface. */
  predicate Implements(ty: GoType, c: Category)
  {
    match ty
    case TIface(k) => k == Some(c)
    case TStruct(t) => Marker(t) == Some(c)
    case TPtr(TStruct(t)) => Marker(t) == Some(c)
    case _ => false
  }

  /** The first interface of `CategoryOrder` the type implements. */
  function FirstImplemented(ty: GoType): (r: Option<Category>)
    ensures r.Some? ==> Implements(ty, r.value)
    ensures r.None? ==> forall c: Category :: !Implements(ty, c)
  {
    if Implements(ty, Element) then Some(Element)
    else if Implements(ty, Action) then Some(Action)
    else if Implements(ty, ActionData) then Some(ActionData)
    else if Implements(ty, Reference) then Some(Reference)
    else if Implements(ty, Layout) then Some(Layout)
    else if Implements(ty, RichTextInline) then Some(RichTextInline)
    else
      CategoriesExhausted(ty);
      None
  }

  /**
   * `FirstImplemented` is the first entry of `CategoryOrder` the type
   * implements: an entry implemented after none before it is the answer.
   */
  lemma FirstInOrder(ty: GoType, i: nat)
    requires i < |CategoryOrder| && Implements(ty, CategoryOrder[i])
    requires forall k :: 0 <= k < i ==> !Implements(ty, CategoryOrder[k])
    ensures FirstImplemented(ty) == Some(CategoryOrder[i])
  {
    if i > 0 { assert !Implements(ty, CategoryOrder[0]); }
    if i > 1 { assert !Implements(ty, CategoryOrder[1]); }
    if i > 2 { assert !Implements(ty, CategoryOrder[2]); }
    if i > 3 { assert !Implements(ty, CategoryOrder[3]); }
    if i > 4 { assert !Implements(ty, CategoryOrder[4]); }
  }

  /** A type that implements no entry of `CategoryOrder` has no first one. */
  lemma NoneInOrder(ty: GoType)
    requires forall k :: 0 <= k < |CategoryOrder| ==> !Implements(ty, CategoryOrder[k])
    ensures FirstImplemented(ty) == None
  {
    assert !Implements(ty, CategoryOrder[0]) && !Implements(ty, CategoryOrder[1]) && !Implements(ty, CategoryOrder[2]);
    assert !Implements(ty, CategoryOrder[3]) && !Implements(ty, CategoryOrder[4]) && !Implements(ty, CategoryOrder[5]);
  }

  lemma CategoriesExhausted(ty: GoType)
    requires !Implements(ty, Element) && !Implements(ty, Action) && !Implements(ty, ActionData)
    requires !Implements(ty, Reference) && !Implements(ty, Layout) && !Implements(ty, RichTextInline)
    ensures forall c: Category :: !Implements(ty, c)
  {
    forall c: Category
      ensures !Implements(ty, c)
    {
      match c
      case Element =>
      case Action =>
      case ActionData =>
      case Reference =>
      case Layout =>
      case RichTextInline =>
    }
  }

  /** How a type is turned into JSON and back. */
  datatype Codec =
    | Smart          // MarshalJSON -> SmartMarshalFromJSON, UnmarshalJSON -> SmartUnmarshalJSON
    | Direct(name: string) // MarshalJSON -> marshalWithType(v, name), UnmarshalJSON -> SmartUnmarshalJSON
    | Plain          // no custom codec: encoding/json's struct rules
    | GridWidth      // GridColumnWidth's hand-written pair
    | Target         // TargetElement's hand-written pair

  function CodecOf(t: TypeName): Codec
  {
    match t
    case TaskFetchSubmitActionData => Direct("task/fetch")
    case StringResource | Common | CommonActionProperties | Fact | BackgroundImage
      | TeamsImageProperties | TeamsCardProperties | TeamsSubmitActionProperties | Resources
      | GridArea | ThemedURL => Plain
    case GridColumnWidth => GridWidth
    case TargetElement => Target
    case _ => Smart
  }

  /** The name `init` registers a type under, or None for a type it does not register. */
  function Discriminator(t: TypeName): Option<string>
  {
    match t
    case AdaptiveCard => Some("AdaptiveCard")
    case ActionSet => Some("ActionSet")
    case Badge => Some("Badge")
    case CodeBlock => Some("CodeBlock")
    case Container => Some("Container")
    case ColumnSet => Some("ColumnSet")
    case Column => Some("Column")
    case FactSet => Some("FactSet")
    case Icon => Some("Icon")
    case Image => Some("Image")
    case ImageSet => Some("ImageSet")
    case Media => Some("Media")
    case Rating => Some("Rating")
    case RichTextBlock => Some("RichTextBlock")
    case Table => Some("Table")
    case TextBlock => Some("TextBlock")
    case InputChoiceSet => Some("Input.ChoiceSet")
    case InputDate => Some("Input.Date")
    case InputNumber => Some("Input.Number")
    case InputRating => Some("Input.Rating")
    case InputText => Some("Input.Text")
    case InputTime => Some("Input.Time")
    case InputToggle => Some("Input.Toggle")
    case TextRun => Some("TextRun")
    case CitationRun => Some("CitationRun")
    case IconRun => Some("IconRun")
    case ImageRun => Some("ImageRun")
    case ActionExecute => Some("Action.Execute")
    case ActionInsertImage => Some("Action.InsertImage")
    case ActionOpenURL => Some("Action.OpenUrl")
    case ActionOpenURLDialog => Some("Action.OpenUrlDialog")
    case ActionPopover => Some("Action.Popover")
    case ActionResetInputs => Some("Action.ResetInputs")
    case ActionRunCommands => Some("Action.RunCommands")
    case ActionShowCard => Some("Action.ShowCard")
    case ActionSubmit => Some("Action.Submit")
    case ActionToggleVisibility => Some("Action.ToggleVisibility")
    case ImBackSubmitActionData => Some("imBack")
    case MessageBackSubmitActionData => Some("messageBack")
    case InvokeSubmitActionData => Some("invoke")
    case TaskFetchSubmitActionData => Some("task/fetch")
    case SigninSubmitActionData => Some("signin")
    case AdaptiveCardReference => Some("AdaptiveCardReference")
    case DocumentReference => Some("DocumentReference")
    case LayoutStack => Some("Layout.Stack")
    case LayoutFlow => Some("Layout.Flow")
    case LayoutAreaGrid => Some("Layout.AreaGrid")
    case StringResource => Some("StringResource")
    case _ => None
  }

  /** Only `InputRating` carries the discriminator "Input.Rating". */
  lemma DiscriminatorInputRating(t: TypeName)
    ensures Discriminator(t) == Some("Input.Rating") ==> t == InputRating
  {
    match t
    case InputNumber => assert "Input.Number"[6] != "Input.Rating"[6];
    case InputToggle => assert "Input.Toggle"[6] != "Input.Rating"[6];
    case AdaptiveCard => assert "AdaptiveCard"[0] != "Input.Rating"[0];
    case LayoutStack => assert "Layout.Stack"[0] != "Input.Rating"[0];
    case _ =>
  }

  /** The typo'd tag on `AllowExpand`, as the source declares it: the key reads `verson`. */
  function AllowExpandAsWritten(): Field
  {
    Field("AllowExpand", [Tag("json", "allowExpand,omitempty"), Tag("verson", "1.2")], TBool, false)
  }

  /** The tag the `AllowExpand` fields evidently intend. */
  function AllowExpandCorrected(): Field
  {
    F("AllowExpand", "allowExpand,omitempty", "1.2", TBool)
  }

  /**
   * A field table for every struct type. The codec and the validator take
   * the table as a parameter so that their general laws are stated for any
   * table; the package's own is `Fields`.
   */
  type Tables = TypeName -> seq<Field>

  /**
   * The field table of a type, in declaration order. Types outside the
   * modelled subset have an empty table: they are decoded, encoded and
   * validated as structs without fields.
   */
  function Fields(t: TypeName): seq<Field>
  {
    if t == AdaptiveCard then AdaptiveCardFields()
    else if t == InputRating then []
    else if t == Image then ImageFields()
    else if t == TeamsImageProperties then TeamsImagePropertiesFields()
    else if t == Common then CommonFields()
    else if t == CommonActionProperties then CommonActionPropertiesFields()
    else if t == ColumnSet then ColumnSetFields()
    else if t == Column then ColumnFields()
    else if t == Container then ContainerFields()
    else if t == FactSet then FactSetFields()
    else if t == Fact then FactFields()
    else if t == TextBlock then TextBlockFields()
    else if t == ActionOpenURL then ActionOpenURLFields()
    else if t == ActionSubmit then ActionSubmitFields()
    else if t == ActionToggleVisibility then ActionToggleVisibilityFields()
    else if t == TargetElement then TargetElementFields()
    else if t == BackgroundImage then BackgroundImageFields()
    else if t == LayoutFlow then LayoutFlowFields()
    else if t == GridArea then GridAreaFields()
    else if t == GridColumnWidth then GridColumnWidthFields()
    else if t == LayoutAreaGrid then LayoutAreaGridFields()
    else if t == ThemedURL then ThemedURLFields()
    else []
  }

  /** The package's tables with the intended `version:"1.2"` tag on both `AllowExpand` fields. */
  function CorrectedFields(t: TypeName): seq<Field>
  {
    if t == Image then ImageFields()[1 := AllowExpandCorrected()]
    else if t == TeamsImageProperties then TeamsImagePropertiesFields()[0 := AllowExpandCorrected()]
    else Fields(t)
  }

  function CommonFields(): seq<Field>
  {
    [
      F("Fallback", "fallback,omitempty", "1.2", Any),
      F("GridArea", "grid.area,omitempty", "1.5", Str),
      F("Height", "height,omitempty", "1.1", PStr),
      F("HorizontalAlignment", "horizontalAlignment,omitempty", "1.0", PStr),
      F("ID", "id,omitempty", "1.0", Str),
      F("IsSortKey", "isSortKey,omitempty", "1.5", TBool),
      F("IsVisible", "isVisible,omitempty", "1.2", TBool),
      F("IsVisibleDynamic", "isVisible.dynamic,omitempty", "1.5", TBool),
      F("Key", "key,omitempty", "1.0", Str),
      F("Lang", "lang,omitempty", "1.1", Str),
      F("Requires", "requires,omitempty", "1.2", TPtr(TMap)),
      F("Separator", "separator,omitempty", "1.0", TBool),
      F("Spacing", "spacing,omitempty", "1.0", PStr),
      F("TargetWidth", "targetWidth,omitempty", "1.0", PStr)]
  }

  function CommonActionPropertiesFields(): seq<Field>
  {
    [
      F("Fallback", "fallback,omitempty", "1.2", Any),
      F("IconURL", "iconUrl,omitempty", "1.1", Str),
      F0("ID", "id,omitempty", Str),
      F("IsEnabled", "isEnabled,omitempty", "1.5", PBool),
      F("IsEnabledDynamic", "isEnabled.dynamic,omitempty", "1.5", PBool),
      F("IsVisible", "isVisible,omitempty", "1.5", PBool),
      F("IsVisibleDynamic", "isVisible.dynamic,omitempty", "1.5", PBool),
      F("Key", "key,omitempty", "1.0", Str),
      F("MenuActions", "menuActions,omitempty", "1.5", TSlice(AnAction)),
      F("Mode", "mode,omitempty", "1.5", PStr),
      F("Requires", "requires,omitempty", "1.2", TMap),
      F("Style", "style,omitempty", "1.2", PStr),
      F("ThemedIconURLs", "themedIconUrls,omitempty", "1.5", TSlice(TStruct(ThemedURL))),
      F0("Title", "title,omitempty", Str),
      F("TitleDynamic", "title.dynamic,omitempty", "1.5", Str),
      F("Tooltip", "tooltip,omitempty", "1.5", Str),
      F("TooltipDynamic", "tooltip.dynamic,omitempty", "1.5", Str)]
  }

  function AdaptiveCardFields(): seq<Field>
  {
    AdaptiveCardFieldsHead() + AdaptiveCardFieldsMiddle() + AdaptiveCardFieldsTail()
  }

  function AdaptiveCardFieldsHead(): seq<Field>
  {
    [
      F0("Schema", "$schema,omitempty", Str),
      F0("Actions", "actions,omitempty", TSlice(AnAction)),
      F("Authentication", "authentication,omitempty", "1.4", TPtr(TStruct(Authentication))),
      F0("Body", "body,omitempty", TSlice(TIface(Some(Element)))),
      F0("FallbackText", "fallbackText,omitempty", Str),
      F("Metadata", "metadata,omitempty", "1.4", TPtr(TStruct(Metadata)))]
  }

  function AdaptiveCardFieldsMiddle(): seq<Field>
  {
    [
      F("MsTeams", "msteams,omitempty", "1.0", TPtr(TStruct(TeamsCardProperties))),
      F("References", "references,omitempty", "1.5", TSlice(TIface(Some(Reference)))),
      F("Refresh", "refresh,omitempty", "1.4", TPtr(TStruct(Refresh))),
      F("Resources", "resources,omitempty", "1.5", TPtr(TStruct(Resources))),
      F0("Speak", "speak,omitempty", Str),
      F0("Version", "version", Str),
      F("BackgroundImage", "backgroundImage,omitempty", "1.2", TPtr(TStruct(BackgroundImage)))]
  }

  function AdaptiveCardFieldsTail(): seq<Field>
  {
    [
      F("Fallback", "fallback,omitempty", "1.2", Any),
      F("GridArea", "grid.area,omitempty", "1.5", TPtr(TStruct(LayoutAreaGrid))),
      F0("ID", "id,omitempty", Str),
      F("IsSortKey", "isSortKey,omitempty", "1.5", TBool),
      F0("Key", "key,omitempty", Str),
      F("Lang", "lang,omitempty", "1.1", Str),
      F("Layouts", "layouts,omitempty", "1.5", TPtr(TIface(Some(Layout)))),
      F("MinHeight", "minHeight,omitempty", "1.2", Str),
      F("Requires", "requires,omitempty", "1.2", TPtr(TMap)),
      F("RTL", "rtl,omitempty", "1.5", PBool),
      F("SelectAction", "selectAction,omitempty", "1.1", AnAction),
      F0("Style", "style,omitempty", PStr),
      F("VerticalContentAlignment", "verticalContentAlignment,omitempty", "1.1", PStr)]
  }

  function ColumnSetFields(): seq<Field>
  {
    [
      Embed(Common, "Common"),
      F0("Columns", "columns,omitempty", TSlice(TStruct(Column))),
      F("MinWidth", "minWidth,omitempty", "1.5", Str),
      F("Bleed", "bleed,omitempty", "1.2", TBool),
      F("MinHeight", "minHeight,omitempty", "1.2", Str),
      F("RoundedCorners", "roundedCorners,omitempty", "1.5", TBool),
      F("ShowBorder", "showBorder,omitempty", "1.5", TBool),
      F("SelectAction", "selectAction,omitempty", "1.1", AnAction)]
  }

  function ColumnFields(): seq<Field>
  {
    [
      Embed(Common, "Common"),
      F0("Items", "items,omitempty", TSlice(TIface(Some(Element)))),
      F0("Width", "width,omitempty", Any),
      F0("BackgroundImage", "backgroundImage,omitempty", TPtr(TStruct(BackgroundImage))),
      F0("Bleed", "bleed,omitempty", TBool),
      F("Layout", "layout,omitempty", "1.5", TPtr(TIface(Some(Layout)))),
      F0("MaxHeight", "maxHeight,omitempty", Str),
      F0("MinHeight", "minHeight,omitempty", Str),
      F("RoundedCorners", "roundedCorners,omitempty", "1.5", TBool),
      F0("RTL", "rtl,omitempty", PBool),
      F0("SelectAction", "selectAction,omitempty", AnAction),
      F("ShowBorder", "showBorder,omitempty", "1.5", TBool),
      F0("Style", "style,omitempty", PStr),
      F0("VerticalContentAlignment", "verticalContentAlignment,omitempty", PStr)]
  }

  function ContainerFields(): seq<Field>
  {
    [
      Embed(Common, "Common"),
      F("BackgroundImage", "backgroundImage,omitempty", "1.2", TPtr(TStruct(BackgroundImage))),
      F0("Items", "items", TSlice(TIface(Some(Element)))),
      F("MaxHeight", "maxHeight,omitempty", "1.5", Str),
      F("MinHeight", "minHeight,omitempty", "1.5", Str),
      F("RTL", "rtl,omitempty", "1.5", PBool),
      F("VerticalContentAlignment", "verticalContentAlignment,omitempty", "1.1", PStr),
      F("Bleed", "bleed,omitempty", "1.2", TBool),
      F("Layouts", "layouts,omitempty", "1.5", TSlice(TIface(Some(Layout)))),
      F("RoundedCorners", "roundedCorners,omitempty", "1.5", TBool),
      F("SelectAction", "selectAction,omitempty", "1.1", AnAction),
      F("ShowBorder", "showBorder,omitempty", "1.5", TBool),
      F0("Style", "style,omitempty", PStr)]
  }

  function FactSetFields(): seq<Field>
  {
    [
      Embed(Common, "Common"),
      F0("Facts", "facts", TSlice(TStruct(Fact)))]
  }

  function FactFields(): seq<Field>
  {
    [
      F("Title", "title", "1.0", Str),
      F("Value", "value", "1.0", Str),
      F("Key", "key,omitempty", "1.0", Str)]
  }

  function ImageFields(): seq<Field>
  {
    [
      Embed(Common, "Common"),
      AllowExpandAsWritten(),
      F("AltText", "altText,omitempty", "1.0", Str),
      F("BackgroundColor", "backgroundColor,omitempty", "1.1", Str),
      F("FitMode", "fitMode,omitempty", "1.2", PStr),
      F0("Height", "height,omitempty", Any),
      F0("HorizontalContentAlignment", "horizontalContentAlignment,omitempty", PStr),
      F("MSTeams", "msteams,omitempty", "1.2", TPtr(TStruct(TeamsImageProperties))),
      F0("SelectAction", "selectAction,omitempty", AnAction),
      F0("Size", "size,omitempty", PStr),
      F0("Style", "style,omitempty", PStr),
      F0("URL", "url", Str),
      F0("VerticalContentAlignment", "verticalContentAlignment,omitempty", PStr),
      F0("Width", "width,omitempty", Str)]
  }

  function TeamsImagePropertiesFields(): seq<Field>
  {
    [
      AllowExpandAsWritten(),
      F("Key", "key,omitempty", "1.0", Str)]
  }

  function TextBlockFields(): seq<Field>
  {
    [
      Embed(Common, "Common"),
      F("LabelFor", "labelFor,omitempty", "1.5", Str),
      F0("MaxLines", "maxLines,omitempty", TInt),
      F("Style", "style,omitempty", "1.5", PStr),
      F0("Wrap", "wrap,omitempty", TBool),
      F0("Color", "color,omitempty", PStr),
      F("FontType", "fontType,omitempty", "1.2", PStr),
      F0("Size", "size,omitempty", PStr),
      F0("Weight", "weight,omitempty", PStr),
      F0("IsSubtle", "isSubtle,omitempty", PBool),
      F0("Text", "text", PStr),
      F("TextDynamic", "text.dynamic,omitempty", "1.5", PStr)]
  }

  function ActionOpenURLFields(): seq<Field>
  {
    [
      Embed(CommonActionProperties, "CommonActionProperties"),
      F0("URL", "url", Str)]
  }

  function ActionSubmitFields(): seq<Field>
  {
    [
      Embed(CommonActionProperties, "CommonActionProperties"),
      F("MSTeams", "msteams,omitempty", "1.2", TPtr(TStruct(TeamsSubmitActionProperties))),
      F0("AssociatedInputs", "associatedInputs,omitempty", PStr),
      F("ConditionallyEnabled", "conditionallyEnabled,omitempty", "1.5", TBool),
      F0("Data", "data,omitempty", Any)]
  }

  function ActionToggleVisibilityFields(): seq<Field>
  {
    [
      Embed(CommonActionProperties, "CommonActionProperties"),
      F0("TargetElements", "targetElements", TSlice(TStruct(TargetElement)))]
  }

  function TargetElementFields(): seq<Field>
  {
    [
      F0("ElementID", "elementId", Str),
      F0("IsVisible", "isVisible,omitempty", PBool)]
  }

  function BackgroundImageFields(): seq<Field>
  {
    [
      F0("URL", "url", Str),
      F0("FillMode", "fillMode,omitempty", PStr),
      F0("HorizontalAlignment", "horizontalAlignment,omitempty", PStr),
      F0("VerticalAlignment", "verticalAlignment,omitempty", PStr)]
  }

  function LayoutFlowFields(): seq<Field>
  {
    [
      F("ColumnSpacing", "columnSpacing,omitempty", "1.5", PStr),
      F("HorizontalItemsAlignment", "horizontalItemsAlignment,omitempty", "1.0", PStr),
      F("ItemFit", "itemFit,omitempty", "1.5", PStr),
      F("ItemWidth", "itemWidth,omitempty", "1.5", Str),
      F("MaxItemWidth", "maxItemWidth,omitempty", "1.5", Str),
      F("MinItemWidth", "minItemWidth,omitempty", "1.5", Str),
      F("RowSpacing", "rowSpacing,omitempty", "1.5", PStr),
      F("VerticalItemsAlignment", "verticalItemsAlignment,omitempty", "1.5", PStr),
      F("Key", "key,omitempty", "1.0", Str),
      F("TargetWidth", "targetWidth,omitempty", "1.0", PStr)]
  }

  function GridAreaFields(): seq<Field>
  {
    [
      F("Column", "column,omitempty", "1.5", TInt),
      F("ColumnSpan", "columnSpan,omitempty", "1.5", TInt),
      F("Name", "name,omitempty", "1.5", Str),
      F("Row", "row,omitempty", "1.5", TInt),
      F("RowSpan", "rowSpan,omitempty", "1.5", TInt),
      F("Key", "key,omitempty", "1.0", Str)]
  }

  function GridColumnWidthFields(): seq<Field>
  {
    [
      F0("Value", "-", Any)]
  }

  function LayoutAreaGridFields(): seq<Field>
  {
    [
      F("Areas", "areas,omitempty", "1.5", TSlice(TStruct(GridArea))),
      F("Columns", "columns,omitempty", "1.5", TSlice(TStruct(GridColumnWidth))),
      F("ColumnSpacing", "columnSpacing,omitempty", "1.5", PStr),
      F("RowSpacing", "rowSpacing,omitempty", "1.5", PStr),
      F("Key", "key,omitempty", "1.0", Str),
      F("TargetWidth", "targetWidth,omitempty", "1.0", PStr)]
  }

  function ThemedURLFields(): seq<Field>
  {
    [
      F("Theme", "theme,omitempty", "1.5", Str),
      F("URL", "url,omitempty", "1.5", Str),
      F("Key", "key,omitempty", "1.0", Str)]
  }

  /**
   * Field `i`'s name as Go declares names: non-empty, free of `.` and `[`,
   * and shared with no other field of the struct, whose names are non-empty.
   */
  predicate PlainName(schema: seq<Field>, i: nat)
    requires i < |schema|
  {
    && schema[i].name != "" && '.' !in schema[i].name && '[' !in schema[i].name
    && (forall k :: 0 <= k < |schema| && k != i ==> schema[k].name != "" && schema[k].name != schema[i].name)
  }

  /** Replacing a field by one of the same name keeps its name plain. */
  lemma PlainNameRenamed(schema: seq<Field>, i: nat, f: Field)
    requires i < |schema| && PlainName(schema, i) && f.name == schema[i].name
    ensures i < |schema[i := f]| && schema[i := f][i] == f && PlainName(schema[i := f], i)
  {
  }

  /** `Image` as declared: `AllowExpand`, tagged `verson`, is field 1, and its name is no other field's. */
  lemma ImageAllowExpandDeclared()
    ensures 1 < |Fields(Image)| && Fields(Image)[1] == AllowExpandAsWritten() && PlainName(Fields(Image), 1)
  {
    ImageTable();
    ImageAllowExpandPlain();
  }

  /** `Image` as corrected: field 1 is `AllowExpand` tagged `version:"1.2"`. */
  lemma ImageAllowExpandCorrected()
    ensures 1 < |CorrectedFields(Image)| && CorrectedFields(Image)[1] == AllowExpandCorrected() && PlainName(CorrectedFields(Image), 1)
  {
    ImageCorrectedTable();
    ImageAllowExpandPlain();
    PlainNameRenamed(ImageFields(), 1, AllowExpandCorrected());
  }

  lemma TeamsAllowExpandDeclared()
    ensures 0 < |Fields(TeamsImageProperties)| && Fields(TeamsImageProperties)[0] == AllowExpandAsWritten()
    ensures PlainName(Fields(TeamsImageProperties), 0)
  {
    TeamsImageTable();
    TeamsAllowExpandPlain();
  }

  lemma TeamsAllowExpandCorrected()
    ensures 0 < |CorrectedFields(TeamsImageProperties)| && CorrectedFields(TeamsImageProperties)[0] == AllowExpandCorrected()
    ensures PlainName(CorrectedFields(TeamsImageProperties), 0)
  {
    TeamsImageCorrectedTable();
    TeamsAllowExpandPlain();
    PlainNameRenamed(TeamsImagePropertiesFields(), 0, AllowExpandCorrected());
  }

  lemma TeamsAllowExpandPlain()
    ensures |TeamsImagePropertiesFields()| == 2 && TeamsImagePropertiesFields()[0] == AllowExpandAsWritten()
    ensures PlainName(TeamsImagePropertiesFields(), 0)
  {
    PlainAllowExpand();
    assert "AllowExpand"[0] != "Key"[0];
  }

  /** The misspelt key hides the tag from `Get("version")`. */
  lemma AsWrittenUntagged()
    ensures VersionTag(AllowExpandAsWritten()) == ""
  {
    assert "json" != "version" && "verson" != "version";
  }

  lemma CorrectedTagged()
    ensures VersionTag(AllowExpandCorrected()) == "1.2"
  {
  }

  lemma CardTable()
    ensures Fields(AdaptiveCard) == AdaptiveCardFields()
  {
  }

  lemma ImageTable()
    ensures Fields(Image) == ImageFields()
  {
    assert Image != AdaptiveCard && Image != InputRating;
  }

  lemma ImageCorrectedTable()
    ensures CorrectedFields(Image) == ImageFields()[1 := AllowExpandCorrected()]
  {
  }

  lemma TeamsImageTable()
    ensures Fields(TeamsImageProperties) == TeamsImagePropertiesFields()
  {
    assert TeamsImageProperties != AdaptiveCard && TeamsImageProperties != InputRating && TeamsImageProperties != Image;
  }

  lemma TeamsImageCorrectedTable()
    ensures CorrectedFields(TeamsImageProperties) == TeamsImagePropertiesFields()[0 := AllowExpandCorrected()]
  {
  }

  /** `AllowExpand` is field 1 of `Image`, a plain name no other field of `Image` has. */
  lemma ImageAllowExpandPlain()
    ensures |ImageFields()| > 1 && ImageFields()[1] == AllowExpandAsWritten() && PlainName(ImageFields(), 1)
  {
    ImageAllowExpand();
    PlainAllowExpand();
    ImageOtherNames();
  }

  lemma ImageAllowExpand()
    ensures |ImageFields()| > 1 && ImageFields()[1] == AllowExpandAsWritten()
  {
  }

  lemma PlainAllowExpand()
    ensures '.' !in "AllowExpand" && '[' !in "AllowExpand"
  {
  }

  lemma ImageOtherNames()
    ensures |ImageFields()| > 1
    ensures forall k :: 0 <= k < |ImageFields()| && k != 1 ==> ImageFields()[k].name != "" && |ImageFields()[k].name| != 11
  {
  }

  /** `InputRating` is outside the modelled field tables: it has no fields. */
  lemma InputRatingTable()
    ensures Fields(InputRating) == []
  {
  }
}
