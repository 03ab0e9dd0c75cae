/**
 * The metadata the generators read: classes, properties and their attributes
 * (SpiderClass, SpiderProperty, SpiderAttribute), the UI control-kind enumeration
 * (UIControlTypeCodes), and the helper predicates whose code is not part of this model.
 */
module Metadata {
  import opened Wrappers
  import opened Collections

  /** UIControlTypeCodes: the widget kinds the UI generator can choose. */
  datatype ControlKind =
    | Autocomplete | Calendar | CheckBox | ColorPick | Dropdown | Editor | File
    | MultiAutocomplete | MultiSelect | Integer | Decimal | Password | TextArea
    | TextBlock | TextBox | Table | TODO

  /** `ToString()` of a control kind: its member name. */
  function ControlKindName(k: ControlKind): string {
    match k
    case Autocomplete => "Autocomplete"
    case Calendar => "Calendar"
    case CheckBox => "CheckBox"
    case ColorPick => "ColorPick"
    case Dropdown => "Dropdown"
    case Editor => "Editor"
    case File => "File"
    case MultiAutocomplete => "MultiAutocomplete"
    case MultiSelect => "MultiSelect"
    case Integer => "Integer"
    case Decimal => "Decimal"
    case Password => "Password"
    case TextArea => "TextArea"
    case TextBlock => "TextBlock"
    case TextBox => "TextBox"
    case Table => "Table"
    case TODO => "TODO"
  }

  /**
   * `Enum.TryParse(value, out result)` followed by using `result`: a member name
   * gives that member; anything else, and a null value, gives `fallback`, the
   * enumeration's default value.
   */
  function ParseControlKind(value: Option<string>, fallback: ControlKind): (k: ControlKind)
    ensures value.None? ==> k == fallback
    ensures k != fallback ==> value == Some(ControlKindName(k))
  {
    match value
    case None => fallback
    case Some(s) =>
      if s == "Autocomplete" then Autocomplete
      else if s == "Calendar" then Calendar
      else if s == "CheckBox" then CheckBox
      else if s == "ColorPick" then ColorPick
      else if s == "Dropdown" then Dropdown
      else if s == "Editor" then Editor
      else if s == "File" then File
      else if s == "MultiAutocomplete" then MultiAutocomplete
      else if s == "MultiSelect" then MultiSelect
      else if s == "Integer" then Integer
      else if s == "Decimal" then Decimal
      else if s == "Password" then Password
      else if s == "TextArea" then TextArea
      else if s == "TextBlock" then TextBlock
      else if s == "TextBox" then TextBox
      else if s == "Table" then Table
      else if s == "TODO" then TODO
      else fallback
  }

  /** A string that names no member, like a null value, parses to the default value. */
  lemma ParseControlKindUnknown(s: string, fallback: ControlKind)
    requires forall c :: ControlKindName(c) != s
    ensures ParseControlKind(Some(s), fallback) == fallback
  {
    var k := ParseControlKind(Some(s), fallback);
    assert ControlKindName(k) != s;
  }

  /** Parsing a member's own name gives that member back, whatever the default is. */
  lemma ParseControlKindName(k: ControlKind, fallback: ControlKind)
    ensures ParseControlKind(Some(ControlKindName(k)), fallback) == k
  {
    match k
    case Autocomplete =>
    case Calendar =>
    case CheckBox =>
    case ColorPick =>
    case Dropdown =>
    case Editor =>
    case File =>
    case MultiAutocomplete =>
    case MultiSelect =>
    case Integer =>
    case Decimal =>
    case Password =>
    case TextArea =>
    case TextBlock =>
    case TextBox =>
    case Table =>
    case TODO =>
  }

  /** A name/value pair attached to a class or a property; the value may be null. */
  datatype Attribute = Attribute(name: string, value: Option<string>)

  /** SpiderProperty: declared type, name, owning entity's name, attributes. */
  datatype Property = Property(typeName: string, name: string, entityName: string, attributes: seq<Attribute>)

  /** SpiderClass: an entity, DTO or service class as the generators see it. */
  datatype SpiderClass = SpiderClass(
    name: string,
    namespace: string,
    baseType: Option<string>,
    controllerName: string,
    properties: seq<Property>,
    attributes: seq<Attribute>)

  /**
   * The helpers the generators call whose code is not part of this model,
   * as uninterpreted functions: every property proved here holds for all of them.
   */
  datatype Helpers = Helpers(
    isManyToOneType: string -> bool,                           // IsManyToOneType
    isEnumerable: string -> bool,                              // IsEnumerable
    isOneToManyType: string -> bool,                           // IsOneToManyType
    extractTypeFromGenericType: string -> string,              // Helpers.ExtractTypeFromGenericType
    firstCharToLower: string -> string,                        // FirstCharToLower
    isBlob: Property -> bool,                                  // IsBlob
    isMultiSelectControlType: Property -> bool,                // IsMultiSelectControlType
    isMultiAutocompleteControlType: Property -> bool,          // IsMultiAutocompleteControlType
    isDropdownControlType: Property -> bool,                   // IsDropdownControlType
    hasUIOrderedOneToManyAttribute: Property -> bool,          // HasUIOrderedOneToManyAttribute
    hasSimpleManyToManyTableLazyLoadAttribute: Property -> bool, // HasSimpleManyToManyTableLazyLoadAttribute
    hasGenerateCommaSeparatedDisplayNameAttribute: Property -> bool, // HasGenerateCommaSeparatedDisplayNameAttribute
    propertyHasUIDoNotGenerateAttribute: Property -> bool,     // SpiderProperty.HasUIDoNotGenerateAttribute
    isColorControlType: Property -> bool,                      // IsColorControlType
    withMany: Property -> Option<string>,                      // WithMany
    shouldGenerateAutocompleteControllerMethod: Property -> bool,
    shouldGenerateDropdownControllerMethod: Property -> bool,
    hasUIDoNotGenerateAttribute: SpiderClass -> bool,          // SpiderClass.HasUIDoNotGenerateAttribute
    isReadonlyObject: SpiderClass -> bool,                     // IsReadonlyObject
    isManyToMany: SpiderClass -> bool,                         // IsManyToMany
    hasDoNotAuthorizeAttribute: SpiderClass -> bool,           // HasDoNotAuthorizeAttribute
    getOrderedOneToManyProperties: SpiderClass -> seq<Property>,   // SpiderClass.GetOrderedOneToManyProperties
    getUIOrderedOneToManyProperties: SpiderClass -> seq<Property>, // Helpers.GetUIOrderedOneToManyProperties
    getBlobProperties: seq<Property> -> seq<Property>,         // Helpers.GetBlobProperties
    defaultControlKind: ControlKind)                           // default(UIControlTypeCodes)

  /** `attributes.Where(x => x.Name == name)`. */
  function AttributesNamed(attrs: seq<Attribute>, name: string): (r: seq<Attribute>)
    ensures forall a :: a in r ==> a in attrs && a.name == name
  {
    Filter(attrs, (a: Attribute) => a.name == name)
  }

  /** `attributes.Any(x => x.Name == name)`. */
  predicate HasAttributeNamed(attrs: seq<Attribute>, name: string) {
    exists i :: 0 <= i < |attrs| && attrs[i].name == name
  }

  /** `attributes.Any(x => x.Value == value)`; a null value matches no string. */
  predicate HasAttributeValue(attrs: seq<Attribute>, value: string) {
    exists i :: 0 <= i < |attrs| && attrs[i].value == Some(value)
  }

  /** `SingleOrDefault` over the attributes named `name` does not throw. */
  predicate AtMostOneNamed(attrs: seq<Attribute>, name: string) {
    |AttributesNamed(attrs, name)| <= 1
  }

  /** `Any` and `Where` agree: an attribute is present exactly when the filtered list is non-empty. */
  lemma {:induction false} AttributesNamedEmpty(attrs: seq<Attribute>, name: string)
    ensures AttributesNamed(attrs, name) == [] <==> !HasAttributeNamed(attrs, name)
  {
    if attrs != [] {
      AttributesNamedEmpty(attrs[1..], name);
      assert HasAttributeNamed(attrs, name) <==> attrs[0].name == name || HasAttributeNamed(attrs[1..], name) by {
        if HasAttributeNamed(attrs[1..], name) {
          var i :| 0 <= i < |attrs[1..]| && attrs[1..][i].name == name;
          assert attrs[i + 1].name == name;
        }
        if HasAttributeNamed(attrs, name) && attrs[0].name != name {
          var i :| 0 <= i < |attrs| && attrs[i].name == name;
          assert attrs[1..][i - 1].name == name;
        }
      }
    }
  }
}
