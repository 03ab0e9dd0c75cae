/**
 * The per-property decisions of the Angular details generator (NgBaseDetailsGenerator):
 * control kind, widget tag, layout width, form-control name, and the filter kind and
 * extra options of a table column.
 */
module UiClassifier {
  import opened Wrappers
  import opened Strings
  import opened Metadata

  const BoolTypes: set<string> := {"bool", "bool?"}
  const DateTypes: set<string> := {"DateTime", "DateTime?"}
  const FractionalTypes: set<string> := {"decimal", "decimal?", "float", "float?", "double", "double?"}
  const IntegralTypes: set<string> := {"long", "long?", "int", "int?", "byte", "byte?"}

  /** The control kind the declared type alone selects, if any (the type switch of GetUIControlType). */
  function PrimitiveControlKind(typeName: string): (k: Option<ControlKind>)
    ensures k.Some? <==> typeName == "string" || typeName in BoolTypes + DateTypes + FractionalTypes + IntegralTypes
  {
    if typeName == "string" then Some(TextBox)
    else if typeName in BoolTypes then Some(CheckBox)
    else if typeName in DateTypes then Some(Calendar)
    else if typeName in FractionalTypes then Some(Decimal)
    else if typeName in IntegralTypes then Some(Integer)
    else None
  }

  /** The `UIControlType` attribute `SingleOrDefault` finds, if any. */
  function ExplicitControlType(p: Property): (a: Option<Attribute>)
    requires AtMostOneNamed(p.attributes, "UIControlType")
    ensures a.Some? <==> HasAttributeNamed(p.attributes, "UIControlType")
    ensures a.Some? ==> a.value.name == "UIControlType" && a.value in p.attributes
  {
    AttributesNamedEmpty(p.attributes, "UIControlType");
    var named := AttributesNamed(p.attributes, "UIControlType");
    if named == [] then None else Some(named[0])
  }

  /** The kinds that can be chosen without an explicit `UIControlType` attribute. */
  const InferableKinds: set<ControlKind> := {File, Autocomplete, Table, TextBox, CheckBox, Calendar, Decimal, Integer, TODO}

  /**
   * GetUIControlType: the first rule that applies decides. An explicit `UIControlType`
   * attribute wins outright; then blob, many-to-one, lazy table; then the declared type;
   * otherwise TODO. More than one `UIControlType` attribute makes `SingleOrDefault` throw.
   */
  function GetUIControlType(h: Helpers, p: Property): (k: ControlKind)
    requires AtMostOneNamed(p.attributes, "UIControlType")
    ensures ExplicitControlType(p).Some? ==> k == ParseControlKind(ExplicitControlType(p).value.value, h.defaultControlKind)
    ensures ExplicitControlType(p).None? ==> k in InferableKinds
    ensures ExplicitControlType(p).None? && h.isBlob(p) ==> k == File
    ensures ExplicitControlType(p).None? && !h.isBlob(p) && h.isManyToOneType(p.typeName) ==> k == Autocomplete
    ensures (ExplicitControlType(p).None? && !h.isBlob(p) && !h.isManyToOneType(p.typeName)
             && h.hasSimpleManyToManyTableLazyLoadAttribute(p)) ==> k == Table
    ensures (ExplicitControlType(p).None? && !h.isBlob(p) && !h.isManyToOneType(p.typeName)
             && !h.hasSimpleManyToManyTableLazyLoadAttribute(p)) ==> k == PrimitiveControlKind(p.typeName).GetOr(TODO)
  {
    match ExplicitControlType(p)
    case Some(a) => ParseControlKind(a.value, h.defaultControlKind)
    case None =>
      if h.isBlob(p) then File
      else if h.isManyToOneType(p.typeName) then Autocomplete
      else if h.hasSimpleManyToManyTableLazyLoadAttribute(p) then Table
      else PrimitiveControlKind(p.typeName).GetOr(TODO)
  }

  /**
   * An explicit control type decides regardless of the declared type and of every other
   * marker: two properties with the same `UIControlType` attributes get the same kind.
   */
  lemma ExplicitControlTypeIsIndependent(h: Helpers, p: Property, q: Property)
    requires AtMostOneNamed(p.attributes, "UIControlType")
    requires AttributesNamed(q.attributes, "UIControlType") == AttributesNamed(p.attributes, "UIControlType")
    requires HasAttributeNamed(p.attributes, "UIControlType")
    ensures GetUIControlType(h, p) == GetUIControlType(h, q)
  {
    AttributesNamedEmpty(p.attributes, "UIControlType");
    AttributesNamedEmpty(q.attributes, "UIControlType");
  }

  /** Without a `UIControlType` attribute, TODO is chosen exactly when no inference rule applies. */
  lemma TodoWhenNoRuleApplies(h: Helpers, p: Property)
    requires AtMostOneNamed(p.attributes, "UIControlType")
    requires !HasAttributeNamed(p.attributes, "UIControlType")
    ensures GetUIControlType(h, p) == TODO <==>
      !h.isBlob(p) && !h.isManyToOneType(p.typeName) && !h.hasSimpleManyToManyTableLazyLoadAttribute(p)
      && p.typeName != "string" && p.typeName !in BoolTypes + DateTypes + FractionalTypes + IntegralTypes
  {
  }

  /** GetUIStringControlType: the tag of the widget component that renders a control kind. */
  function GetUIStringControlType(k: ControlKind): (tag: string)
    ensures StartsWith(tag, "spider-") <==> k != TODO
  {
    match k
    case Autocomplete => "spider-autocomplete"
    case Calendar => "spider-calendar"
    case CheckBox => "spider-checkbox"
    case ColorPick => "spider-colorpick"
    case Dropdown => "spider-dropdown"
    case Editor => "spider-editor"
    case File => "spider-file"
    case MultiAutocomplete => "spider-multiautocomplete"
    case MultiSelect => "spider-multiselect"
    case Integer => "spider-number"
    case Decimal => "spider-number"
    case Password => "spider-password"
    case TextArea => "spider-textarea"
    case TextBlock => "spider-textblock"
    case TextBox => "spider-textbox"
    case Table => "spider-data-table"
    case TODO => "TODO"
  }

  /** Distinct kinds get distinct widgets, except that Integer and Decimal share the number widget. */
  lemma {:induction false} WidgetTagsDistinguishKinds(a: ControlKind, b: ControlKind)
    requires GetUIStringControlType(a) == GetUIStringControlType(b)
    ensures a == b || {a, b} == {Integer, Decimal}
  {
    var ta, tb := GetUIStringControlType(a), GetUIStringControlType(b);
    // The tags differ in length or at one position unless both kinds are the same.
    match a
    case Autocomplete => assert ta[7] == 'a' && |ta| == 19;
    case Calendar => assert ta[7] == 'c' && ta[8] == 'a';
    case CheckBox => assert ta[7] == 'c' && ta[8] == 'h';
    case ColorPick => assert ta[7] == 'c' && ta[8] == 'o';
    case Dropdown => assert ta[7] == 'd' && ta[8] == 'r';
    case Editor => assert ta[7] == 'e';
    case File => assert ta[7] == 'f';
    case MultiAutocomplete => assert ta[7] == 'm' && |ta| == 24;
    case MultiSelect => assert ta[7] == 'm' && |ta| == 18;
    case Integer => assert ta[7] == 'n';
    case Decimal => assert ta[7] == 'n';
    case Password => assert ta[7] == 'p';
    case TextArea => assert ta[7] == 't' && ta[10] == 't' && ta[11] == 'a';
    case TextBlock => assert ta[7] == 't' && ta[11] == 'b';
    case TextBox => assert ta[7] == 't' && |ta| == 14;
    case Table => assert ta[7] == 'd' && ta[8] == 'a';
    case TODO => assert ta == "TODO";
  }

  /** The kinds that take a whole row (`col-12`). */
  const FullWidthKinds: set<ControlKind> := {File, TextArea, MultiSelect, MultiAutocomplete, Table, Editor}

  /** What GetUIControlWidth's preconditions guard: `SingleOrDefault` on the width attribute, and on the control-type attribute when the width is not given. */
  predicate WidthDefined(p: Property) {
    && AtMostOneNamed(p.attributes, "UIControlWidth")
    && (AttributesNamed(p.attributes, "UIControlWidth") == [] ==> AtMostOneNamed(p.attributes, "UIControlType"))
  }

  /**
   * GetUIControlWidth: an explicit `UIControlWidth` value, verbatim (it may be null);
   * otherwise `col-12` for the full-width kinds and `col-12 md:col-6` for the rest.
   */
  function GetUIControlWidth(h: Helpers, p: Property): (w: Option<string>)
    requires WidthDefined(p)
    ensures AttributesNamed(p.attributes, "UIControlWidth") != [] ==>
      w == AttributesNamed(p.attributes, "UIControlWidth")[0].value
    ensures AttributesNamed(p.attributes, "UIControlWidth") == [] ==>
      (w == Some("col-12") <==> GetUIControlType(h, p) in FullWidthKinds)
    ensures AttributesNamed(p.attributes, "UIControlWidth") == [] ==>
      (w == Some("col-12 md:col-6") <==> GetUIControlType(h, p) !in FullWidthKinds)
  {
    AttributesNamedEmpty(p.attributes, "UIControlWidth");
    var named := AttributesNamed(p.attributes, "UIControlWidth");
    if named != [] then named[0].value
    else if GetUIControlType(h, p) in FullWidthKinds then Some("col-12")
    else Some("col-12 md:col-6")
  }

  /**
   * Without width or control-type overrides, a property takes a whole row exactly when it is
   * a blob, or a lazy-table many-to-many that is not a many-to-one reference.
   */
  lemma InferredWidthIsFullRowOnlyForFileOrTable(h: Helpers, p: Property)
    requires !HasAttributeNamed(p.attributes, "UIControlWidth") && !HasAttributeNamed(p.attributes, "UIControlType")
    requires WidthDefined(p)
    ensures GetUIControlWidth(h, p) == Some("col-12") <==>
      h.isBlob(p) || (!h.isManyToOneType(p.typeName) && h.hasSimpleManyToManyTableLazyLoadAttribute(p))
  {
    AttributesNamedEmpty(p.attributes, "UIControlWidth");
    var k := GetUIControlType(h, p);
    assert ExplicitControlType(p).None?;
    if !h.isBlob(p) && !h.isManyToOneType(p.typeName) && !h.hasSimpleManyToManyTableLazyLoadAttribute(p) {
      assert k == PrimitiveControlKind(p.typeName).GetOr(TODO);
      assert k !in FullWidthKinds;
    }
  }

  /** GetFormControlName: the camel-cased property name, with `Id` appended for a many-to-one reference. */
  function GetFormControlName(h: Helpers, p: Property): (name: string)
    ensures StartsWith(name, h.firstCharToLower(p.name))
    ensures |name| == |h.firstCharToLower(p.name)| + (if h.isManyToOneType(p.typeName) then 2 else 0)
    ensures h.isManyToOneType(p.typeName) ==> EndsWith(name, "Id")
  {
    var camel := h.firstCharToLower(p.name);
    if h.isManyToOneType(p.typeName) then
      assert (camel + "Id")[..|camel|] == camel;
      camel + "Id"
    else camel
  }

  /** GetTableColFilterType: the column filter kind; null when nothing matches. */
  function GetTableColFilterType(h: Helpers, p: Property): (f: Option<string>)
    ensures f == Some("multiselect") <==>
      h.isDropdownControlType(p) || h.hasGenerateCommaSeparatedDisplayNameAttribute(p)
    ensures f == Some("text") <==>
      !h.isDropdownControlType(p) && !h.hasGenerateCommaSeparatedDisplayNameAttribute(p)
      && (h.isManyToOneType(p.typeName) || p.typeName == "string")
    ensures f == Some("date") <==> !UsesNamebookColumn(h, p) && p.typeName in DateTypes
    ensures f == Some("numeric") <==> !UsesNamebookColumn(h, p) && p.typeName in FractionalTypes + IntegralTypes
    ensures f == Some("boolean") <==> !UsesNamebookColumn(h, p) && p.typeName in BoolTypes
    ensures f.None? <==> (!UsesNamebookColumn(h, p) && p.typeName != "string"
                          && p.typeName !in BoolTypes + DateTypes + FractionalTypes + IntegralTypes)
  {
    if h.isDropdownControlType(p) then Some("multiselect")
    else if h.hasGenerateCommaSeparatedDisplayNameAttribute(p) then Some("multiselect")
    else if h.isManyToOneType(p.typeName) then Some("text")
    else if p.typeName == "string" then Some("text")
    else if p.typeName in BoolTypes then Some("boolean")
    else if p.typeName in DateTypes then Some("date")
    else if p.typeName in FractionalTypes + IntegralTypes then Some("numeric")
    else None
  }

  /** A column filtered by a dropdown or multiselect, or a many-to-one text column: the type switch is not reached. */
  predicate UsesNamebookColumn(h: Helpers, p: Property) {
    h.isDropdownControlType(p) || h.hasGenerateCommaSeparatedDisplayNameAttribute(p) || h.isManyToOneType(p.typeName)
  }

  /** The extra options of a table column (GetTableColAdditionalProperties), as structured values. */
  datatype ColumnOptions =
    | DropdownFilter(filterField: string, optionsMethod: string)  // filter on `{camel(Name)}Id`, options from the dropdown endpoint
    | CommaSeparatedValues(optionsMethod: string)                 // options from the dropdown endpoint
    | ShowMatchModes                                              // `, showMatchModes: true`
    | NoOptions                                                   // null

  /** The API-client method a column's dropdown values come from: `get{Name}DropdownListFor{Entity}`. */
  function DropdownListMethod(p: Property, entityName: string): string {
    "get" + p.name + "DropdownListFor" + entityName
  }

  /** GetTableColAdditionalProperties: dropdown first, then comma-separated display name, then date and numeric types. */
  function GetTableColAdditionalProperties(h: Helpers, p: Property, entityName: string): (o: ColumnOptions)
    ensures o.DropdownFilter? <==> h.isDropdownControlType(p)
    ensures o.DropdownFilter? ==> o == DropdownFilter(h.firstCharToLower(p.name) + "Id", DropdownListMethod(p, entityName))
    ensures o.CommaSeparatedValues? <==> !h.isDropdownControlType(p) && h.hasGenerateCommaSeparatedDisplayNameAttribute(p)
    ensures o.CommaSeparatedValues? ==> o.optionsMethod == DropdownListMethod(p, entityName)
    ensures o == ShowMatchModes <==>
      !h.isDropdownControlType(p) && !h.hasGenerateCommaSeparatedDisplayNameAttribute(p)
      && p.typeName in DateTypes + FractionalTypes + IntegralTypes
  {
    if h.isDropdownControlType(p) then DropdownFilter(h.firstCharToLower(p.name) + "Id", DropdownListMethod(p, entityName))
    else if h.hasGenerateCommaSeparatedDisplayNameAttribute(p) then CommaSeparatedValues(DropdownListMethod(p, entityName))
    else if p.typeName in DateTypes + FractionalTypes + IntegralTypes then ShowMatchModes
    else NoOptions
  }

  /**
   * Match modes are offered for every date and numeric filter; the converse fails only for a
   * type that is at once many-to-one and date or numeric, which gets a text filter.
   */
  lemma MatchModesFollowFilterKind(h: Helpers, p: Property, entityName: string)
    ensures GetTableColFilterType(h, p) in {Some("date"), Some("numeric")} ==>
      GetTableColAdditionalProperties(h, p, entityName) == ShowMatchModes
    ensures GetTableColAdditionalProperties(h, p, entityName) == ShowMatchModes && !h.isManyToOneType(p.typeName) ==>
      GetTableColFilterType(h, p) in {Some("date"), Some("numeric")}
    ensures (GetTableColAdditionalProperties(h, p, entityName).DropdownFilter?
             || GetTableColAdditionalProperties(h, p, entityName).CommaSeparatedValues?) <==>
      GetTableColFilterType(h, p) == Some("multiselect")
  {
  }
}
