/**
 * The form blocks of a details component: GetAngularFormBlocks (one block per UI-block
 * property, with or without a form-control name), GetPropertyBlocks (the rendered blocks),
 * GetNgIfForPropertyBlock and GetShowFormBlocksVariables. The two list-building methods
 * append the entity's custom DTO properties to the list they are given, as the source does.
 */
module UiBlocks {
  import opened Wrappers
  import opened Collections
  import opened Strings
  import opened Metadata
  import opened UiClassifier
  import opened UiOrdering

  /** A `List<SpiderProperty>` that callees may grow in place. */
  class PropertyList {
    var items: seq<Property>

    constructor (items: seq<Property>)
      ensures this.items == items
    {
      this.items := items;
    }
  }

  /** `x.Name.Replace("DTO", "") == entity.Name`: the custom DTO that extends an entity's form. */
  predicate IsCustomDtoOf(dto: SpiderClass, entityName: string) {
    ReplaceAll(dto.name, "DTO", "") == entityName
  }

  function CustomDtosOf(dtos: seq<SpiderClass>, entityName: string): seq<SpiderClass> {
    Filter(dtos, d => IsCustomDtoOf(d, entityName))
  }

  /** `SingleOrDefault` over the matching custom DTOs does not throw. */
  predicate UniqueCustomDto(dtos: seq<SpiderClass>, entityName: string) {
    |CustomDtosOf(dtos, entityName)| <= 1
  }

  /** The properties `AddRange` appends: those of the matching custom DTO, or none. */
  function CustomDtoProperties(dtos: seq<SpiderClass>, entityName: string): seq<Property>
    requires UniqueCustomDto(dtos, entityName)
  {
    var matching := CustomDtosOf(dtos, entityName);
    if matching == [] then [] else matching[0].properties
  }

  // ---------------------------------------------------------------------
  // Form blocks (AngularFormBlock)

  /** AngularFormBlock: a property and the name of its form control, if it has one. */
  datatype FormBlock = FormBlock(formControlName: Option<string>, property: Property)

  predicate IsMultiControl(h: Helpers, p: Property) {
    h.isMultiSelectControlType(p) || h.isMultiAutocompleteControlType(p)
  }

  /** GetUIControlType is reached for every UI-block property that is not an ordered one-to-many list. */
  predicate FormBlockDefined(h: Helpers, p: Property) {
    !h.hasUIOrderedOneToManyAttribute(p) ==> AtMostOneNamed(p.attributes, "UIControlType")
  }

  predicate FormBlocksDefined(h: Helpers, properties: seq<Property>) {
    forall p :: p in properties && KeepForUIBlocks(h, p) ==> FormBlockDefined(h, p)
  }

  /** The `selected{Name}For{Entity}` control of a multi-select or multi-autocomplete property. */
  function SelectedControlName(p: Property, entityName: string): string {
    "selected" + p.name + "For" + entityName
  }

  /**
   * The block of one property: no form control for an ordered one-to-many list or a table;
   * the `selected…` control for a multi control; otherwise GetFormControlName.
   */
  function FormBlockFor(h: Helpers, entityName: string, p: Property): (b: FormBlock)
    requires FormBlockDefined(h, p)
    ensures b.property == p
  {
    if h.hasUIOrderedOneToManyAttribute(p) then FormBlock(None, p)
    else
      var kind := GetUIControlType(h, p);
      if IsMultiControl(h, p) then FormBlock(Some(SelectedControlName(p, entityName)), p)
      else if kind != Table then FormBlock(Some(GetFormControlName(h, p)), p)
      else FormBlock(None, p)
  }

  /**
   * A block has a form control exactly when its property is neither an ordered one-to-many
   * list nor a table rendered without a multi control; a multi control is named after the
   * entity, any other control by GetFormControlName.
   */
  lemma FormControlNaming(h: Helpers, entityName: string, p: Property)
    requires FormBlockDefined(h, p)
    ensures FormBlockFor(h, entityName, p).formControlName.None? <==>
      h.hasUIOrderedOneToManyAttribute(p) || (!IsMultiControl(h, p) && GetUIControlType(h, p) == Table)
    ensures !h.hasUIOrderedOneToManyAttribute(p) && IsMultiControl(h, p) ==>
      FormBlockFor(h, entityName, p).formControlName == Some(SelectedControlName(p, entityName))
    ensures (!h.hasUIOrderedOneToManyAttribute(p) && !IsMultiControl(h, p) && GetUIControlType(h, p) != Table) ==>
      FormBlockFor(h, entityName, p).formControlName == Some(GetFormControlName(h, p))
  {
  }

  /** The blocks of a list of UI-block properties, one each, in order. */
  function FormBlocksOf(h: Helpers, entityName: string, s: seq<Property>): (r: seq<FormBlock>)
    requires forall p :: p in s ==> FormBlockDefined(h, p)
    ensures |r| == |s|
  {
    if s == [] then [] else FormBlocksOf(h, entityName, s[..|s| - 1]) + [FormBlockFor(h, entityName, s[|s| - 1])]
  }

  lemma {:induction false} FormBlocksOfIndex(h: Helpers, entityName: string, s: seq<Property>)
    requires forall p :: p in s ==> FormBlockDefined(h, p)
    ensures forall i :: 0 <= i < |s| ==> FormBlocksOf(h, entityName, s)[i] == FormBlockFor(h, entityName, s[i])
  {
    if s != [] {
      FormBlocksOfIndex(h, entityName, s[..|s| - 1]);
    }
  }

  /**
   * GetAngularFormBlocks: appends the custom DTO's properties to the caller's list, then
   * builds one block per UI-block property of the grown list.
   */
  method GetAngularFormBlocks(h: Helpers, properties: PropertyList, entityName: string, dtos: seq<SpiderClass>)
    returns (blocks: seq<FormBlock>)
    requires UniqueCustomDto(dtos, entityName)
    requires FormBlocksDefined(h, properties.items + CustomDtoProperties(dtos, entityName))
    modifies properties
    ensures properties.items == old(properties.items) + CustomDtoProperties(dtos, entityName)
    ensures blocks == FormBlocksOf(h, entityName, GetPropertiesForUIBlocks(h, properties.items))
  {
    properties.items := properties.items + CustomDtoProperties(dtos, entityName);
    blocks := BuildFormBlocks(h, entityName, GetPropertiesForUIBlocks(h, properties.items));
  }

  /** The `foreach` of GetAngularFormBlocks over the UI-block list. */
  method BuildFormBlocks(h: Helpers, entityName: string, ordered: seq<Property>) returns (blocks: seq<FormBlock>)
    requires forall p :: p in ordered ==> FormBlockDefined(h, p)
    ensures blocks == FormBlocksOf(h, entityName, ordered)
  {
    blocks := [];
    var i := 0;
    while i < |ordered|
      invariant 0 <= i <= |ordered|
      invariant blocks == FormBlocksOf(h, entityName, ordered[..i])
    {
      var p := ordered[i];
      assert FormBlockDefined(h, p);
      var block: FormBlock;
      if h.hasUIOrderedOneToManyAttribute(p) {
        block := FormBlock(None, p);
      } else {
        var kind := GetUIControlType(h, p);
        if IsMultiControl(h, p) {
          block := FormBlock(Some(SelectedControlName(p, entityName)), p);
        } else if kind != Table {
          block := FormBlock(Some(GetFormControlName(h, p)), p);
        } else {
          block := FormBlock(None, p);
        }
      }
      assert ordered[..i + 1][..i] == ordered[..i];
      blocks := blocks + [block];
      i := i + 1;
    }
    assert ordered[..i] == ordered;
  }

  /** The form blocks follow the UI-block list one for one, in order. */
  lemma FormBlocksFollowUIBlocks(h: Helpers, entityName: string, properties: seq<Property>)
    requires FormBlocksDefined(h, properties)
    ensures var ordered := GetPropertiesForUIBlocks(h, properties);
      var blocks := FormBlocksOf(h, entityName, ordered);
      |blocks| == |ordered| && forall i :: 0 <= i < |blocks| ==> blocks[i].property == ordered[i]
  {
    FormBlocksOfIndex(h, entityName, GetPropertiesForUIBlocks(h, properties));
  }

  // ---------------------------------------------------------------------
  // Show flags

  /** The `show{Name}For{EntityName}` input that switches one block on or off. */
  function ShowFlagName(p: Property): string {
    "show" + p.name + "For" + p.entityName
  }

  /** GetNgIfForPropertyBlock: blocks inside an ordered list's items have no `*ngIf`; the others test their show flag. */
  function GetNgIfForPropertyBlock(p: Property, isFromOrderedOneToMany: bool): (ngIf: Option<string>)
    ensures ngIf.None? <==> isFromOrderedOneToMany
    ensures ngIf.Some? ==> ngIf.value == ShowFlagName(p)
  {
    if isFromOrderedOneToMany then None else Some(ShowFlagName(p))
  }

  /** The show flags declared for a list of form blocks, one per block. */
  function ShowFlagsOf(blocks: seq<FormBlock>): (flags: seq<string>)
    ensures |flags| == |blocks|
    ensures forall i :: 0 <= i < |blocks| ==> flags[i] == ShowFlagName(blocks[i].property)
  {
    seq(|blocks|, i requires 0 <= i < |blocks| => ShowFlagName(blocks[i].property))
  }

  /** GetShowFormBlocksVariables: one `@Input() show…` flag per form block (the list grows first). */
  method GetShowFormBlocksVariables(h: Helpers, properties: PropertyList, entityName: string, dtos: seq<SpiderClass>)
    returns (flags: seq<string>)
    requires UniqueCustomDto(dtos, entityName)
    requires FormBlocksDefined(h, properties.items + CustomDtoProperties(dtos, entityName))
    modifies properties
    ensures properties.items == old(properties.items) + CustomDtoProperties(dtos, entityName)
    ensures flags == ShowFlagsOf(FormBlocksOf(h, entityName, GetPropertiesForUIBlocks(h, properties.items)))
  {
    var blocks := GetAngularFormBlocks(h, properties, entityName, dtos);
    flags := ShowFlagsOfBlocks(blocks);
  }

  /** The loop of GetShowFormBlocksVariables: one flag per block, in block order. */
  method ShowFlagsOfBlocks(blocks: seq<FormBlock>) returns (flags: seq<string>)
    ensures flags == ShowFlagsOf(blocks)
  {
    flags := [];
    var i := 0;
    while i < |blocks|
      invariant 0 <= i <= |blocks|
      invariant |flags| == i
      invariant forall j :: 0 <= j < i ==> flags[j] == ShowFlagName(blocks[j].property)
    {
      flags := flags + [ShowFlagName(blocks[i].property)];
      i := i + 1;
    }
  }

  // ---------------------------------------------------------------------
  // Property blocks

  /** The rendered blocks of the form, as structured values. */
  datatype PropertyBlock =
    | OrderedOneToManyBlock(ngIf: Option<string>, property: Property, target: SpiderClass, items: seq<PropertyBlock>)
      // `<div *ngIf class="col-12">` around a panel of index cards, one form per item of `target`
    | NestedOrderedBlock(property: Property)
      // an ordered list inside an ordered list's item form; its content is not expanded here
    | ControlBlock(ngIf: Option<string>, width: Option<string>, tag: string, property: Property)
      // `<div *ngIf class=width><tag …></tag></div>`

  /** The entities an ordered one-to-many property's element type names. */
  function OrderedTargets(h: Helpers, p: Property, allEntities: seq<SpiderClass>): seq<SpiderClass> {
    Filter(allEntities, (c: SpiderClass) => c.name == h.extractTypeFromGenericType(p.typeName))
  }

  /** The target's properties the item form shows: not the back reference, not enumerable. */
  function ItemProperties(h: Helpers, p: Property, target: SpiderClass): seq<Property> {
    Filter(target.properties, (x: Property) => h.withMany(x) != Some(p.name) && !h.isEnumerable(x.typeName))
  }

  predicate IsOrderedBlock(p: Property) {
    HasAttributeNamed(p.attributes, "UIOrderedOneToMany")
  }

  /** A control block's `SingleOrDefault` lookups do not throw. */
  predicate ControlBlockDefined(p: Property) {
    AtMostOneNamed(p.attributes, "UIControlType") && WidthDefined(p)
  }

  predicate ItemBlocksDefined(h: Helpers, s: seq<Property>) {
    forall q :: q in s && KeepForUIBlocks(h, q) && !IsOrderedBlock(q) ==> ControlBlockDefined(q)
  }

  /**
   * An ordered block needs exactly one target entity (none dereferences null, several make
   * `SingleOrDefault` throw), at most one custom DTO for it, and well-defined item blocks.
   */
  predicate OrderedBlockDefined(h: Helpers, p: Property, allEntities: seq<SpiderClass>, dtos: seq<SpiderClass>) {
    var targets := OrderedTargets(h, p, allEntities);
    && |targets| == 1
    && UniqueCustomDto(dtos, targets[0].name)
    && ItemBlocksDefined(h, ItemProperties(h, p, targets[0]) + CustomDtoProperties(dtos, targets[0].name))
  }

  predicate PropertyBlockDefined(h: Helpers, p: Property, allEntities: seq<SpiderClass>, dtos: seq<SpiderClass>) {
    if IsOrderedBlock(p) then OrderedBlockDefined(h, p, allEntities, dtos) else ControlBlockDefined(p)
  }

  predicate PropertyBlocksDefined(h: Helpers, properties: seq<Property>, allEntities: seq<SpiderClass>, dtos: seq<SpiderClass>) {
    forall p :: p in properties && KeepForUIBlocks(h, p) ==> PropertyBlockDefined(h, p, allEntities, dtos)
  }

  /** The widget block of a property: show-flag test, width, widget tag. */
  function ControlBlockFor(h: Helpers, p: Property, isFromOrderedOneToMany: bool): PropertyBlock
    requires ControlBlockDefined(p)
  {
    ControlBlock(GetNgIfForPropertyBlock(p, isFromOrderedOneToMany), GetUIControlWidth(h, p),
                 GetUIStringControlType(GetUIControlType(h, p)), p)
  }

  /** The block of one item property: a nested ordered list is not expanded; any other property is a widget without show flag. */
  function ItemBlockFor(h: Helpers, q: Property): PropertyBlock
    requires !IsOrderedBlock(q) ==> ControlBlockDefined(q)
  {
    if IsOrderedBlock(q) then NestedOrderedBlock(q) else ControlBlockFor(h, q, true)
  }

  /** The blocks of an ordered list's item form (GetPropertyBlocks with `isFromOrderedOneToMany`). */
  function ItemBlocksOf(h: Helpers, s: seq<Property>): (r: seq<PropertyBlock>)
    requires forall q :: q in s && !IsOrderedBlock(q) ==> ControlBlockDefined(q)
    ensures |r| == |s|
  {
    if s == [] then [] else ItemBlocksOf(h, s[..|s| - 1]) + [ItemBlockFor(h, s[|s| - 1])]
  }

  /** Item blocks are widgets without show flags, or unexpanded nested lists, one per item property. */
  lemma {:induction false} ItemBlocksOfIndex(h: Helpers, s: seq<Property>)
    requires forall q :: q in s && !IsOrderedBlock(q) ==> ControlBlockDefined(q)
    ensures forall i :: 0 <= i < |s| ==> ItemBlocksOf(h, s)[i].property == s[i]
    ensures forall i :: 0 <= i < |s| ==> (ItemBlocksOf(h, s)[i].NestedOrderedBlock? <==> IsOrderedBlock(s[i]))
    ensures forall i :: 0 <= i < |s| && !IsOrderedBlock(s[i]) ==> ItemBlocksOf(h, s)[i] == ControlBlockFor(h, s[i], true)
  {
    var r := ItemBlocksOf(h, s);
    forall i | 0 <= i < |s|
      ensures r[i].property == s[i]
      ensures r[i].NestedOrderedBlock? <==> IsOrderedBlock(s[i])
      ensures !IsOrderedBlock(s[i]) ==> r[i] == ControlBlockFor(h, s[i], true)
    {
      ItemBlockAt(h, s, i);
    }
  }

  lemma {:induction false} ItemBlockAt(h: Helpers, s: seq<Property>, i: nat)
    requires forall q :: q in s && !IsOrderedBlock(q) ==> ControlBlockDefined(q)
    requires i < |s|
    ensures s[i] in s && ItemBlocksOf(h, s)[i] == ItemBlockFor(h, s[i])
  {
    var init := s[..|s| - 1];
    ItemBlocksInit(h, s);
    if i < |init| {
      ItemBlockAt(h, init, i);
      assert s[i] == init[i];
    }
  }

  /** Dropping the last item property drops the last item block. */
  lemma ItemBlocksInit(h: Helpers, s: seq<Property>)
    requires forall q :: q in s && !IsOrderedBlock(q) ==> ControlBlockDefined(q)
    requires s != []
    ensures forall q :: q in s[..|s| - 1] && !IsOrderedBlock(q) ==> ControlBlockDefined(q)
    ensures ItemBlocksOf(h, s) == ItemBlocksOf(h, s[..|s| - 1]) + [ItemBlockFor(h, s[|s| - 1])]
  {
    assert forall x :: x in s[..|s| - 1] ==> x in s;
  }

  /** GetOrderedOneToManyBlock: the item form shows the UI blocks of the target's item properties and its custom DTO. */
  function OrderedBlockFor(h: Helpers, p: Property, allEntities: seq<SpiderClass>, dtos: seq<SpiderClass>): (b: PropertyBlock)
    requires OrderedBlockDefined(h, p, allEntities, dtos)
    ensures b.OrderedOneToManyBlock? && b.property == p
    ensures b.ngIf == Some(ShowFlagName(p))
    ensures b.target in allEntities && b.target.name == h.extractTypeFromGenericType(p.typeName)
    ensures forall j :: 0 <= j < |b.items| && b.items[j].ControlBlock? ==> b.items[j].ngIf.None?
    ensures b.target == OrderedTargets(h, p, allEntities)[0] && UniqueCustomDto(dtos, b.target.name)
    ensures var s := GetPropertiesForUIBlocks(h, ItemProperties(h, p, b.target) + CustomDtoProperties(dtos, b.target.name));
      && |b.items| == |s|
      && (forall q :: q in s && !IsOrderedBlock(q) ==> ControlBlockDefined(q))
      && (forall j :: 0 <= j < |s| ==> b.items[j] == ItemBlockFor(h, s[j]))
  {
    var target := OrderedTargets(h, p, allEntities)[0];
    var itemProperties := ItemProperties(h, p, target) + CustomDtoProperties(dtos, target.name);
    UIBlocksContents(h, itemProperties);
    OrderedBlockItemsDefined(h, itemProperties);
    OrderedBlockTarget(h, p, allEntities);
    ItemBlocksOfIndex(h, GetPropertiesForUIBlocks(h, itemProperties));
    OrderedOneToManyBlock(GetNgIfForPropertyBlock(p, false), p, target, ItemBlocksOf(h, GetPropertiesForUIBlocks(h, itemProperties)))
  }

  lemma OrderedBlockItemsDefined(h: Helpers, s: seq<Property>)
    requires ItemBlocksDefined(h, s)
    ensures forall q :: q in GetPropertiesForUIBlocks(h, s) && !IsOrderedBlock(q) ==> ControlBlockDefined(q)
  {
    UIBlocksContents(h, s);
  }

  lemma OrderedBlockTarget(h: Helpers, p: Property, allEntities: seq<SpiderClass>)
    requires |OrderedTargets(h, p, allEntities)| == 1
    ensures OrderedTargets(h, p, allEntities)[0] in allEntities
    ensures OrderedTargets(h, p, allEntities)[0].name == h.extractTypeFromGenericType(p.typeName)
  {
    assert OrderedTargets(h, p, allEntities)[0] in OrderedTargets(h, p, allEntities);
  }

  function PropertyBlockFor(h: Helpers, p: Property, allEntities: seq<SpiderClass>, dtos: seq<SpiderClass>): (b: PropertyBlock)
    requires PropertyBlockDefined(h, p, allEntities, dtos)
    ensures b.property == p
    ensures IsOrderedBlock(p) ==> b.OrderedOneToManyBlock? && b.ngIf == Some(ShowFlagName(p))
    ensures !IsOrderedBlock(p) ==>
      && b.ControlBlock? && b.ngIf == Some(ShowFlagName(p))
      && b.width == GetUIControlWidth(h, p)
      && b.tag == GetUIStringControlType(GetUIControlType(h, p))
  {
    if IsOrderedBlock(p) then OrderedBlockFor(h, p, allEntities, dtos) else ControlBlockFor(h, p, false)
  }

  /** The top-level blocks of a list of UI-block properties, one each, in order. */
  function PropertyBlocksOf(h: Helpers, s: seq<Property>, allEntities: seq<SpiderClass>, dtos: seq<SpiderClass>): (r: seq<PropertyBlock>)
    requires forall p :: p in s ==> PropertyBlockDefined(h, p, allEntities, dtos)
    ensures |r| == |s|
  {
    if s == [] then []
    else PropertyBlocksOf(h, s[..|s| - 1], allEntities, dtos) + [PropertyBlockFor(h, s[|s| - 1], allEntities, dtos)]
  }

  lemma {:induction false} PropertyBlocksOfIndex(h: Helpers, s: seq<Property>, allEntities: seq<SpiderClass>, dtos: seq<SpiderClass>)
    requires forall p :: p in s ==> PropertyBlockDefined(h, p, allEntities, dtos)
    ensures forall i :: 0 <= i < |s| ==> PropertyBlocksOf(h, s, allEntities, dtos)[i] == PropertyBlockFor(h, s[i], allEntities, dtos)
  {
    if s != [] {
      var init := s[..|s| - 1];
      PropertyBlocksOfIndex(h, init, allEntities, dtos);
      var r := PropertyBlocksOf(h, s, allEntities, dtos);
      assert r == PropertyBlocksOf(h, init, allEntities, dtos) + [PropertyBlockFor(h, s[|s| - 1], allEntities, dtos)];
      forall i | 0 <= i < |s| ensures r[i] == PropertyBlockFor(h, s[i], allEntities, dtos) {
        if i < |s| - 1 {
          assert s[i] == init[i];
        }
      }
    }
  }

  /**
   * GetPropertyBlocks at the top of a form: appends the custom DTO's properties to the
   * caller's list, then renders one block per UI-block property of the grown list.
   */
  method GetPropertyBlocks(h: Helpers, properties: PropertyList, entityName: string,
                           allEntities: seq<SpiderClass>, dtos: seq<SpiderClass>)
    returns (blocks: seq<PropertyBlock>)
    requires UniqueCustomDto(dtos, entityName)
    requires PropertyBlocksDefined(h, properties.items + CustomDtoProperties(dtos, entityName), allEntities, dtos)
    modifies properties
    ensures properties.items == old(properties.items) + CustomDtoProperties(dtos, entityName)
    ensures blocks == PropertyBlocksOf(h, GetPropertiesForUIBlocks(h, properties.items), allEntities, dtos)
  {
    properties.items := properties.items + CustomDtoProperties(dtos, entityName);
    blocks := BuildPropertyBlocks(h, GetPropertiesForUIBlocks(h, properties.items), allEntities, dtos);
  }

  /** The `foreach` of GetPropertyBlocks over the UI-block list. */
  method BuildPropertyBlocks(h: Helpers, ordered: seq<Property>, allEntities: seq<SpiderClass>, dtos: seq<SpiderClass>)
    returns (blocks: seq<PropertyBlock>)
    requires forall p :: p in ordered ==> PropertyBlockDefined(h, p, allEntities, dtos)
    ensures blocks == PropertyBlocksOf(h, ordered, allEntities, dtos)
  {
    blocks := [];
    var i := 0;
    while i < |ordered|
      invariant 0 <= i <= |ordered|
      invariant blocks == PropertyBlocksOf(h, ordered[..i], allEntities, dtos)
    {
      var block := BuildPropertyBlock(h, ordered[i], allEntities, dtos);
      PropertyBlocksPrefixStep(h, ordered, i, allEntities, dtos);
      blocks := blocks + [block];
      i := i + 1;
    }
    assert ordered[..i] == ordered;
  }

  /** One iteration of GetPropertyBlocks: an ordered list's block, or a widget under its show flag. */
  method BuildPropertyBlock(h: Helpers, p: Property, allEntities: seq<SpiderClass>, dtos: seq<SpiderClass>)
    returns (block: PropertyBlock)
    requires PropertyBlockDefined(h, p, allEntities, dtos)
    ensures block == PropertyBlockFor(h, p, allEntities, dtos)
  {
    if IsOrderedBlock(p) {
      block := OrderedBlockFor(h, p, allEntities, dtos);
    } else {
      var tag := GetUIStringControlType(GetUIControlType(h, p));
      block := ControlBlock(GetNgIfForPropertyBlock(p, false), GetUIControlWidth(h, p), tag, p);
    }
  }

  /** The blocks of a one-longer prefix: those of the prefix, then the next property's. */
  lemma PropertyBlocksPrefixStep(h: Helpers, s: seq<Property>, i: nat, allEntities: seq<SpiderClass>, dtos: seq<SpiderClass>)
    requires forall p :: p in s ==> PropertyBlockDefined(h, p, allEntities, dtos)
    requires i < |s|
    ensures forall p :: p in s[..i + 1] ==> PropertyBlockDefined(h, p, allEntities, dtos)
    ensures PropertyBlocksOf(h, s[..i + 1], allEntities, dtos)
            == PropertyBlocksOf(h, s[..i], allEntities, dtos) + [PropertyBlockFor(h, s[i], allEntities, dtos)]
  {
    assert forall p :: p in s[..i + 1] ==> p in s;
    assert s[..i + 1][..i] == s[..i];
  }

  /**
   * The top-level blocks follow the rendered list one for one; each is shown under its own
   * show flag and carries the widget of its control kind, and an ordered list's item form
   * shows its item properties without show flags.
   */
  lemma PropertyBlocksFollowUIBlocks(h: Helpers, ordered: seq<Property>, allEntities: seq<SpiderClass>, dtos: seq<SpiderClass>)
    requires forall i :: 0 <= i < |ordered| ==> PropertyBlockDefined(h, ordered[i], allEntities, dtos)
    ensures var blocks := PropertyBlocksOf(h, ordered, allEntities, dtos);
      && |blocks| == |ordered|
      && (forall i :: 0 <= i < |blocks| ==> blocks[i].property == ordered[i])
      && (forall i :: 0 <= i < |blocks| && !IsOrderedBlock(ordered[i]) ==>
            && blocks[i].ControlBlock?
            && blocks[i].ngIf == Some(ShowFlagName(ordered[i]))
            && blocks[i].width == GetUIControlWidth(h, ordered[i])
            && blocks[i].tag == GetUIStringControlType(GetUIControlType(h, ordered[i])))
      && (forall i :: 0 <= i < |blocks| && IsOrderedBlock(ordered[i]) ==>
            && blocks[i].OrderedOneToManyBlock?
            && blocks[i].ngIf == Some(ShowFlagName(ordered[i]))
            && forall j :: 0 <= j < |blocks[i].items| && blocks[i].items[j].ControlBlock? ==> blocks[i].items[j].ngIf.None?)
  {
    PropertyBlocksOfIndex(h, ordered, allEntities, dtos);
  }

  /**
   * Every rendered top-level block tests a show flag the component declares, as long as
   * the two lists hold the same properties: the lists that grow between the two calls
   * keep this property.
   */
  lemma ShowFlagsCoverPropertyBlocks(h: Helpers, entityName: string, rendered: seq<Property>, declared: seq<Property>,
                                     allEntities: seq<SpiderClass>, dtos: seq<SpiderClass>)
    requires PropertyBlocksDefined(h, rendered, allEntities, dtos)
    requires FormBlocksDefined(h, declared)
    requires forall p :: p in rendered ==> p in declared
    ensures var blocks := PropertyBlocksOf(h, GetPropertiesForUIBlocks(h, rendered), allEntities, dtos);
      var flags := ShowFlagsOf(FormBlocksOf(h, entityName, GetPropertiesForUIBlocks(h, declared)));
      forall i :: 0 <= i < |blocks| ==>
        && !blocks[i].NestedOrderedBlock?
        && blocks[i].ngIf == Some(ShowFlagName(blocks[i].property))
        && ShowFlagName(blocks[i].property) in flags
  {
    UIBlocksMembers(h, rendered);
    UIBlocksMembers(h, declared);
    var ordered := GetPropertiesForUIBlocks(h, rendered);
    var declaredOrder := GetPropertiesForUIBlocks(h, declared);
    var blocks := PropertyBlocksOf(h, ordered, allEntities, dtos);
    var formBlocks := FormBlocksOf(h, entityName, declaredOrder);
    var flags := ShowFlagsOf(formBlocks);
    PropertyBlocksOfIndex(h, ordered, allEntities, dtos);
    FormBlocksOfIndex(h, entityName, declaredOrder);
    forall i | 0 <= i < |blocks|
      ensures !blocks[i].NestedOrderedBlock? && blocks[i].ngIf == Some(ShowFlagName(blocks[i].property))
      ensures ShowFlagName(blocks[i].property) in flags
    {
      var p := ordered[i];
      assert p in declaredOrder;
      var j :| 0 <= j < |declaredOrder| && declaredOrder[j] == p;
      assert flags[j] == ShowFlagName(p);
    }
  }
}
