/**
 * One generated details component and the generator's entry point: which classes are
 * read (Execute), which entities get a component (GetAngularBaseDetailsComponents), and
 * the order in which the component's parts are computed from `entity.Properties`, a list
 * that GetPropertyBlocks and GetAngularFormBlocks grow in place on every call.
 * GenerateComponentAsWritten keeps that growth and is what the lemmas about duplicated
 * custom-DTO members are about; the generated file is built from GenerateComponent, in
 * which every part sees the entity's properties followed by its custom DTO's once.
 */
module UiComponent {
  import opened Wrappers
  import opened Collections
  import opened Strings
  import opened Metadata
  import opened UiClassifier
  import opened UiOrdering
  import opened UiBlocks
  import opened UiAuthorization
  import opened UiMembers
  import opened UiImports

  // ---------------------------------------------------------------------
  // Which classes are read and which entities get a component

  predicate IsDtoClass(c: SpiderClass) {
    EndsWith(c.namespace, ".DTO")
  }

  predicate IsEntityClass(c: SpiderClass) {
    EndsWith(c.namespace, ".Entities")
  }

  /** The class lists Execute derives from the current and the referenced project. */
  datatype GeneratorInputs = GeneratorInputs(
    customDtos: seq<SpiderClass>,
    currentEntities: seq<SpiderClass>,
    allEntities: seq<SpiderClass>)

  /**
   * Execute's selection: nothing at all when the project has at most one class (the
   * settings class), otherwise the current project's DTOs and entities, and the entities
   * of both projects, current ones first.
   */
  function SelectGeneratorInputs(classCount: nat, current: seq<SpiderClass>, referenced: seq<SpiderClass>): (r: Option<GeneratorInputs>)
    ensures r.None? <==> classCount <= 1
  {
    if classCount <= 1 then None
    else
      var entities := Filter(current, IsEntityClass);
      Some(GeneratorInputs(Filter(current, IsDtoClass), entities, entities + Filter(referenced, IsEntityClass)))
  }

  /** The DTOs are the current project's `.DTO` classes; the entities are the `.Entities` classes of either project. */
  lemma GeneratorInputsExactly(classCount: nat, current: seq<SpiderClass>, referenced: seq<SpiderClass>, c: SpiderClass)
    requires classCount > 1
    ensures var r := SelectGeneratorInputs(classCount, current, referenced).value;
      && (c in r.customDtos <==> c in current && IsDtoClass(c))
      && (c in r.currentEntities <==> c in current && IsEntityClass(c))
      && (c in r.allEntities <==> (c in current || c in referenced) && IsEntityClass(c))
      && IsSubsequence(r.currentEntities, current)
  {
    FilterMembership(current, IsDtoClass, c);
    FilterMembership(current, IsEntityClass, c);
    FilterMembership(referenced, IsEntityClass, c);
    FilterIsSubsequence(current, IsEntityClass);
  }

  /** The filter of GetAngularBaseDetailsComponents. */
  predicate GetsComponent(h: Helpers, c: SpiderClass) {
    !h.hasUIDoNotGenerateAttribute(c) && !h.isReadonlyObject(c) && !h.isManyToMany(c)
  }

  function ComponentEntities(h: Helpers, entities: seq<SpiderClass>): seq<SpiderClass> {
    Filter(entities, c => GetsComponent(h, c))
  }

  /**
   * An entity gets a component exactly when it has no UIDoNotGenerate attribute, is not
   * read-only and is not a many-to-many join entity; the components keep entity order.
   */
  lemma ComponentEntitiesExactly(h: Helpers, entities: seq<SpiderClass>, c: SpiderClass)
    ensures c in ComponentEntities(h, entities) <==> c in entities && GetsComponent(h, c)
    ensures IsSubsequence(ComponentEntities(h, entities), entities)
  {
    FilterMembership(entities, c => GetsComponent(h, c), c);
    FilterIsSubsequence(entities, c => GetsComponent(h, c));
  }

  // ---------------------------------------------------------------------
  // One component

  /** The parts of a details component this model computes. */
  datatype DetailsComponent = DetailsComponent(
    propertyBlocks: seq<PropertyBlock>,       // the form's blocks (template)
    optionVariables: seq<string>,             // PrimeNG option arrays
    showFlags: seq<string>,                   // `@Input() show…For…` declarations
    forkJoinNames: seq<string>,               // destructured from the aggregated fetch
    permissionClauses: seq<PermissionClause>, // extra `isAuthorizedForSave` clauses
    enableLines: seq<ToggleLine>,             // run when saving is authorized
    disableLines: seq<ToggleLine>,            // run when it is not
    searchMethods: seq<string>,               // autocomplete search methods
    uploadMethods: seq<string>)               // upload methods

  /** `d` appended `k` times: what `AddRange` leaves after `k` calls. */
  function Repeated(d: seq<Property>, k: nat): seq<Property> {
    if k == 0 then [] else Repeated(d, k - 1) + d
  }

  /** However often the DTO's properties were appended, the list holds the same properties. */
  lemma {:induction false} RepeatedMembership(entityProperties: seq<Property>, d: seq<Property>, k: nat)
    requires k >= 1
    ensures forall p :: p in entityProperties + Repeated(d, k) <==> p in entityProperties + d
  {
    if k > 1 {
      RepeatedMembership(entityProperties, d, k - 1);
      assert entityProperties + Repeated(d, k) == (entityProperties + Repeated(d, k - 1)) + d;
    } else {
      assert Repeated(d, 1) == d;
    }
  }

  /** The lookups of every part succeed on the entity's properties plus its custom DTO's. */
  predicate ComponentDefined(h: Helpers, entity: SpiderClass, allEntities: seq<SpiderClass>, dtos: seq<SpiderClass>) {
    && UniqueCustomDto(dtos, entity.name)
    && ViewDefined(h, entity.properties + CustomDtoProperties(dtos, entity.name), allEntities, dtos)
  }

  predicate ViewDefined(h: Helpers, v: seq<Property>, allEntities: seq<SpiderClass>, dtos: seq<SpiderClass>) {
    && PropertyBlocksDefined(h, v, allEntities, dtos)
    && FormBlocksDefined(h, v)
    && MembersDefined(h, OptionVariables, v, allEntities)
    && MembersDefined(h, SearchMethods, v, allEntities)
    && MembersDefined(h, UploadMethods, v, allEntities)
  }

  /** `entity.Properties` after `k` appends of the custom DTO's properties. */
  function View(entity: SpiderClass, dtos: seq<SpiderClass>, k: nat): seq<Property>
    requires UniqueCustomDto(dtos, entity.name)
  {
    entity.properties + Repeated(CustomDtoProperties(dtos, entity.name), k)
  }

  lemma ViewZero(entity: SpiderClass, dtos: seq<SpiderClass>)
    requires UniqueCustomDto(dtos, entity.name)
    ensures View(entity, dtos, 0) == entity.properties
  {
    assert entity.properties + [] == entity.properties;
  }

  /** One more append gives the next view. */
  lemma ViewGrows(entity: SpiderClass, dtos: seq<SpiderClass>, k: nat)
    requires UniqueCustomDto(dtos, entity.name)
    ensures View(entity, dtos, k) + CustomDtoProperties(dtos, entity.name) == View(entity, dtos, k + 1)
  {
  }

  /** Every view after at least one append holds the same properties, so its lookups succeed too. */
  lemma ViewIsDefined(h: Helpers, entity: SpiderClass, allEntities: seq<SpiderClass>, dtos: seq<SpiderClass>, k: nat)
    requires ComponentDefined(h, entity, allEntities, dtos) && k >= 1
    ensures ViewDefined(h, View(entity, dtos, k), allEntities, dtos)
  {
    RepeatedMembership(entity.properties, CustomDtoProperties(dtos, entity.name), k);
  }

  function BlocksOfView(h: Helpers, entity: SpiderClass, allEntities: seq<SpiderClass>, dtos: seq<SpiderClass>, k: nat): seq<PropertyBlock>
    requires ComponentDefined(h, entity, allEntities, dtos) && k >= 1
  {
    ViewIsDefined(h, entity, allEntities, dtos, k);
    PropertyBlocksOf(h, GetPropertiesForUIBlocks(h, View(entity, dtos, k)), allEntities, dtos)
  }

  function FormBlocksOfView(h: Helpers, entity: SpiderClass, allEntities: seq<SpiderClass>, dtos: seq<SpiderClass>, k: nat): seq<FormBlock>
    requires ComponentDefined(h, entity, allEntities, dtos) && k >= 1
  {
    ViewIsDefined(h, entity, allEntities, dtos, k);
    FormBlocksOf(h, entity.name, GetPropertiesForUIBlocks(h, View(entity, dtos, k)))
  }

  /**
   * The component as computed when its parts see the entity's properties followed by `k1`
   * to `k4` copies of the custom DTO's: the blocks and option variables see `k1`, the show
   * flags and the fetch names `k2`, the enabling lines `k3`, and the disabling lines, search
   * and upload methods `k4`.
   */
  function ComponentFromViews(h: Helpers, entity: SpiderClass, allEntities: seq<SpiderClass>, dtos: seq<SpiderClass>,
                              k1: nat, k2: nat, k3: nat, k4: nat): DetailsComponent
    requires ComponentDefined(h, entity, allEntities, dtos)
    requires k1 >= 1 && k2 >= 1 && k3 >= 1 && k4 >= 1
  {
    DetailsComponent(
      BlocksOfView(h, entity, allEntities, dtos, k1),
      MembersOf(h, OptionVariables, View(entity, dtos, k1), entity.name),
      ShowFlagsOf(FormBlocksOfView(h, entity, allEntities, dtos, k2)),
      [h.firstCharToLower(entity.name)] + ForkJoinNamesOf(h, View(entity, dtos, k2), entity.name),
      PermissionClausesOf(entity.attributes),
      ToggleLinesOf(h, entity.name, FormBlocksOfView(h, entity, allEntities, dtos, k3), Enable),
      ToggleLinesOf(h, entity.name, FormBlocksOfView(h, entity, allEntities, dtos, k4), Disable),
      MembersOf(h, SearchMethods, View(entity, dtos, k4), entity.name),
      MembersOf(h, UploadMethods, View(entity, dtos, k4), entity.name))
  }

  /**
   * The component as the template computes it: every part reads `entity.Properties`, and
   * the property blocks, the show flags and the two toggle lists each grow it first.
   */
  method GenerateComponentAsWritten(h: Helpers, entity: SpiderClass, allEntities: seq<SpiderClass>, dtos: seq<SpiderClass>)
    returns (c: DetailsComponent)
    requires ComponentDefined(h, entity, allEntities, dtos)
    ensures c == ComponentFromViews(h, entity, allEntities, dtos, 1, 2, 3, 4)
  {
    var properties := new PropertyList(entity.properties);
    ViewZero(entity, dtos);
    ViewGrows(entity, dtos, 0);
    ViewIsDefined(h, entity, allEntities, dtos, 1);
    var blocks := GetPropertyBlocks(h, properties, entity.name, allEntities, dtos);
    assert properties.items == View(entity, dtos, 1);
    assert blocks == BlocksOfView(h, entity, allEntities, dtos, 1);
    var options := GetPrimengOptionVariables(h, properties.items, entity.name, allEntities);
    ViewGrows(entity, dtos, 1);
    ViewIsDefined(h, entity, allEntities, dtos, 2);
    var flags := GetShowFormBlocksVariables(h, properties, entity.name, dtos);
    assert properties.items == View(entity, dtos, 2);
    assert flags == ShowFlagsOf(FormBlocksOfView(h, entity, allEntities, dtos, 2));
    var names := GetForkJoinParameterNames(h, entity.(properties := properties.items));
    var clauses := GetAdditionalPermissionCodes(entity.attributes);
    ViewGrows(entity, dtos, 2);
    ViewIsDefined(h, entity, allEntities, dtos, 3);
    var enable := GetControlsForNonAuthorizedUser(h, properties, entity.name, dtos, false);
    assert properties.items == View(entity, dtos, 3);
    assert enable == ToggleLinesOf(h, entity.name, FormBlocksOfView(h, entity, allEntities, dtos, 3), Enable);
    ViewGrows(entity, dtos, 3);
    ViewIsDefined(h, entity, allEntities, dtos, 4);
    var disable := GetControlsForNonAuthorizedUser(h, properties, entity.name, dtos, true);
    assert properties.items == View(entity, dtos, 4);
    assert disable == ToggleLinesOf(h, entity.name, FormBlocksOfView(h, entity, allEntities, dtos, 4), Disable);
    var search := GetAutocompleteSearchMethods(h, properties.items, entity.name, allEntities);
    var upload := GetUploadImageMethods(h, properties.items, entity.name, allEntities);
    c := DetailsComponent(blocks, options, flags, names, clauses, enable, disable, search, upload);
  }

  /**
   * The component with every part computed from the entity's properties followed by its
   * custom DTO's, once: each growing call is given its own copy of the entity's list.
   */
  method GenerateComponent(h: Helpers, entity: SpiderClass, allEntities: seq<SpiderClass>, dtos: seq<SpiderClass>)
    returns (c: DetailsComponent)
    requires ComponentDefined(h, entity, allEntities, dtos)
    ensures c == ComponentFromViews(h, entity, allEntities, dtos, 1, 1, 1, 1)
  {
    ViewZero(entity, dtos);
    ViewGrows(entity, dtos, 0);
    ViewIsDefined(h, entity, allEntities, dtos, 1);
    var merged := View(entity, dtos, 1);
    var forBlocks := new PropertyList(entity.properties);
    var blocks := GetPropertyBlocks(h, forBlocks, entity.name, allEntities, dtos);
    assert blocks == BlocksOfView(h, entity, allEntities, dtos, 1);
    var options := GetPrimengOptionVariables(h, merged, entity.name, allEntities);
    var forFlags := new PropertyList(entity.properties);
    var flags := GetShowFormBlocksVariables(h, forFlags, entity.name, dtos);
    assert flags == ShowFlagsOf(FormBlocksOfView(h, entity, allEntities, dtos, 1));
    var names := GetForkJoinParameterNames(h, entity.(properties := merged));
    var clauses := GetAdditionalPermissionCodes(entity.attributes);
    var forEnable := new PropertyList(entity.properties);
    var enable := GetControlsForNonAuthorizedUser(h, forEnable, entity.name, dtos, false);
    assert enable == ToggleLinesOf(h, entity.name, FormBlocksOfView(h, entity, allEntities, dtos, 1), Enable);
    var forDisable := new PropertyList(entity.properties);
    var disable := GetControlsForNonAuthorizedUser(h, forDisable, entity.name, dtos, true);
    assert disable == ToggleLinesOf(h, entity.name, FormBlocksOfView(h, entity, allEntities, dtos, 1), Disable);
    var search := GetAutocompleteSearchMethods(h, merged, entity.name, allEntities);
    var upload := GetUploadImageMethods(h, merged, entity.name, allEntities);
    c := DetailsComponent(blocks, options, flags, names, clauses, enable, disable, search, upload);
  }

  /**
   * As written, the disabling lines outnumber the enabling lines by the custom DTO's
   * properties that have a control to switch: the two lists are computed after three and
   * four appends of the DTO's properties.
   */
  lemma AsWrittenToggleCountGap(h: Helpers, entity: SpiderClass, allEntities: seq<SpiderClass>, dtos: seq<SpiderClass>)
    requires ComponentDefined(h, entity, allEntities, dtos)
    ensures var c := ComponentFromViews(h, entity, allEntities, dtos, 1, 2, 3, 4);
      |c.disableLines| == |c.enableLines|
        + CountWhere(CustomDtoProperties(dtos, entity.name), p => KeepForUIBlocks(h, p) && PropertyHasToggle(h, p))
  {
    var d := CustomDtoProperties(dtos, entity.name);
    ViewIsDefined(h, entity, allEntities, dtos, 3);
    ViewIsDefined(h, entity, allEntities, dtos, 4);
    ToggleLinesCountOverProperties(h, entity.name, View(entity, dtos, 3), Enable);
    ToggleLinesCountOverProperties(h, entity.name, View(entity, dtos, 4), Disable);
    ViewGrows(entity, dtos, 3);
    CountWhereConcat(View(entity, dtos, 3), d, p => KeepForUIBlocks(h, p) && PropertyHasToggle(h, p));
  }

  /** The UI-block list has one entry per kept property. */
  lemma UIBlocksLength(h: Helpers, s: seq<Property>)
    ensures |GetPropertiesForUIBlocks(h, s)| == CountWhere(s, p => KeepForUIBlocks(h, p))
  {
    UIBlocksContents(h, s);
    assert |multiset(GetPropertiesForUIBlocks(h, s))| == |multiset(Filter(s, p => KeepForUIBlocks(h, p)))|;
  }

  /**
   * As written, the show flags are declared over the list after two appends while the
   * blocks are rendered after one: every kept property of the custom DTO has its flag
   * declared one more time than it has a block.
   */
  lemma AsWrittenShowFlagsCountGap(h: Helpers, entity: SpiderClass, allEntities: seq<SpiderClass>, dtos: seq<SpiderClass>)
    requires ComponentDefined(h, entity, allEntities, dtos)
    ensures var c := ComponentFromViews(h, entity, allEntities, dtos, 1, 2, 3, 4);
      |c.showFlags| == |c.propertyBlocks| + CountWhere(CustomDtoProperties(dtos, entity.name), p => KeepForUIBlocks(h, p))
  {
    var d := CustomDtoProperties(dtos, entity.name);
    ViewIsDefined(h, entity, allEntities, dtos, 1);
    ViewIsDefined(h, entity, allEntities, dtos, 2);
    UIBlocksLength(h, View(entity, dtos, 1));
    UIBlocksLength(h, View(entity, dtos, 2));
    ViewGrows(entity, dtos, 1);
    CountWhereConcat(View(entity, dtos, 1), d, p => KeepForUIBlocks(h, p));
  }

  /** Every part of the corrected component sees the same list, so the enabling and disabling lines differ only in their verb. */
  lemma CorrectedToggleSymmetry(h: Helpers, entity: SpiderClass, allEntities: seq<SpiderClass>, dtos: seq<SpiderClass>)
    requires ComponentDefined(h, entity, allEntities, dtos)
    ensures var c := ComponentFromViews(h, entity, allEntities, dtos, 1, 1, 1, 1);
      && |c.disableLines| == |c.enableLines|
      && forall i :: 0 <= i < |c.enableLines| ==> c.disableLines[i] == c.enableLines[i].(verb := Disable)
  {
    ToggleVerbSwap(h, entity.name, FormBlocksOfView(h, entity, allEntities, dtos, 1), Enable, Disable);
  }

  /** In the corrected component the show flags are exactly the blocks' flags, one per block, in block order. */
  lemma CorrectedShowFlagsMatchBlocks(h: Helpers, entity: SpiderClass, allEntities: seq<SpiderClass>, dtos: seq<SpiderClass>)
    requires ComponentDefined(h, entity, allEntities, dtos)
    ensures var c := ComponentFromViews(h, entity, allEntities, dtos, 1, 1, 1, 1);
      && |c.showFlags| == |c.propertyBlocks|
      && forall i :: 0 <= i < |c.propertyBlocks| ==> c.showFlags[i] == ShowFlagName(c.propertyBlocks[i].property)
  {
    ViewIsDefined(h, entity, allEntities, dtos, 1);
    var ordered := GetPropertiesForUIBlocks(h, View(entity, dtos, 1));
    PropertyBlocksFollowUIBlocks(h, ordered, allEntities, dtos);
    FormBlocksOfIndex(h, entity.name, ordered);
  }

  // ---------------------------------------------------------------------
  // A concrete component that shows the duplicated custom-DTO members

  function WitnessHelpers(): Helpers {
    Helpers(
      _ => false, _ => false, _ => false, s => s, s => s,
      _ => false, _ => false, _ => false, _ => false, _ => false, _ => false, _ => false, _ => false, _ => false,
      _ => None, _ => false, _ => false,
      _ => false, _ => false, _ => false, _ => false,
      _ => [], _ => [], _ => [],
      TextBox)
  }

  /** A plain string property declared on the custom DTO. */
  function WitnessDtoProperty(): Property {
    Property("string", "Nickname", "PersonDTO", [])
  }

  function WitnessEntity(): SpiderClass {
    SpiderClass("Person", "App.Entities", None, "Person", [], [])
  }

  function WitnessDtos(): seq<SpiderClass> {
    [SpiderClass("PersonDTO", "App.DTO", None, "Person", [WitnessDtoProperty()], [])]
  }

  /** The DTO `PersonDTO` is the custom DTO of `Person`. */
  lemma WitnessDtoLookup()
    ensures UniqueCustomDto(WitnessDtos(), WitnessEntity().name)
    ensures CustomDtoProperties(WitnessDtos(), WitnessEntity().name) == [WitnessDtoProperty()]
  {
    WitnessDtoName();
    assert CustomDtosOf(WitnessDtos(), WitnessEntity().name) == WitnessDtos();
  }

  /** Removing "DTO" from "PersonDTO" leaves "Person". */
  lemma WitnessDtoName()
    ensures ReplaceAll("PersonDTO", "DTO", "") == "Person"
  {
    assert "PersonDTO" == "Person" + "DTO";
    ReplaceTrailing("Person", "DTO", "");
    assert "Person" + "" == "Person";
  }

  /** A property without attributes, whose helpers answer no, has a well-defined single-property view. */
  lemma PlainPropertyViewDefined(h: Helpers, p: Property, allEntities: seq<SpiderClass>, dtos: seq<SpiderClass>)
    requires p.attributes == []
    requires !h.hasUIOrderedOneToManyAttribute(p) && !h.propertyHasUIDoNotGenerateAttribute(p)
    ensures ViewDefined(h, [p], allEntities, dtos)
  {
    assert AttributesNamed(p.attributes, "UIControlType") == [];
    assert AttributesNamed(p.attributes, "UIControlWidth") == [];
    assert !IsOrderedBlock(p);
    assert !HasAttributeNamed(p.attributes, "UIDoNotGenerate");
    assert ControlBlockDefined(p);
    assert PropertyBlockDefined(h, p, allEntities, dtos);
    assert MemberDefined(h, OptionVariables, p, allEntities);
    assert MemberDefined(h, SearchMethods, p, allEntities);
    assert MemberDefined(h, UploadMethods, p, allEntities);
  }

  /** The DTO's string property is kept, is a text box and has a control to switch. */
  lemma WitnessPropertyFacts()
    ensures KeepForUIBlocks(WitnessHelpers(), WitnessDtoProperty())
    ensures GetUIControlType(WitnessHelpers(), WitnessDtoProperty()) == TextBox
    ensures PropertyHasToggle(WitnessHelpers(), WitnessDtoProperty())
  {
    var h := WitnessHelpers();
    var p := WitnessDtoProperty();
    assert AttributesNamed(p.attributes, "UIControlType") == [];
    assert !HasAttributeNamed(p.attributes, "UIDoNotGenerate");
    assert ExplicitControlType(p).None?;
  }

  /** Every lookup of the witness component succeeds. */
  lemma WitnessDefined()
    ensures ComponentDefined(WitnessHelpers(), WitnessEntity(), [WitnessEntity()], WitnessDtos())
  {
    WitnessDtoLookup();
    PlainPropertyViewDefined(WitnessHelpers(), WitnessDtoProperty(), [WitnessEntity()], WitnessDtos());
    assert WitnessEntity().properties + [WitnessDtoProperty()] == [WitnessDtoProperty()];
  }

  /**
   * An entity without properties of its own whose custom DTO has one kept property with a
   * control to switch: as written, the component has one block, declares that block's show
   * flag twice, and disables one more control than it enables.
   */
  lemma SingleDtoPropertyDuplicates(h: Helpers, entity: SpiderClass, allEntities: seq<SpiderClass>, dtos: seq<SpiderClass>, p: Property)
    requires ComponentDefined(h, entity, allEntities, dtos)
    requires entity.properties == [] && CustomDtoProperties(dtos, entity.name) == [p]
    requires KeepForUIBlocks(h, p) && PropertyHasToggle(h, p)
    ensures var c := ComponentFromViews(h, entity, allEntities, dtos, 1, 2, 3, 4);
      && |c.propertyBlocks| == 1
      && |c.showFlags| == 2
      && c.showFlags[0] == c.showFlags[1]
      && |c.disableLines| == |c.enableLines| + 1
  {
    SingletonCounts(h, p);
    AsWrittenShowFlagsCountGap(h, entity, allEntities, dtos);
    AsWrittenToggleCountGap(h, entity, allEntities, dtos);
    SingleDtoPropertyOneBlock(h, entity, allEntities, dtos, p);
    SingleDtoPropertyFlagsRepeat(h, entity, allEntities, dtos, p);
  }

  lemma SingletonCounts(h: Helpers, p: Property)
    requires KeepForUIBlocks(h, p) && PropertyHasToggle(h, p)
    ensures CountWhere([p], q => KeepForUIBlocks(h, q)) == 1
    ensures CountWhere([p], q => KeepForUIBlocks(h, q) && PropertyHasToggle(h, q)) == 1
  {
    assert [p][1..] == [];
  }

  /** With the DTO's property as the only one, the first view has exactly one block. */
  lemma SingleDtoPropertyOneBlock(h: Helpers, entity: SpiderClass, allEntities: seq<SpiderClass>, dtos: seq<SpiderClass>, p: Property)
    requires ComponentDefined(h, entity, allEntities, dtos)
    requires entity.properties == [] && CustomDtoProperties(dtos, entity.name) == [p]
    requires KeepForUIBlocks(h, p)
    ensures |ComponentFromViews(h, entity, allEntities, dtos, 1, 2, 3, 4).propertyBlocks| == 1
  {
    ViewIsDefined(h, entity, allEntities, dtos, 1);
    UIBlocksLength(h, View(entity, dtos, 1));
    assert Repeated([p], 1) == [p] by { assert Repeated([p], 0) == []; }
    assert View(entity, dtos, 1) == [p];
    assert CountWhere([p], q => KeepForUIBlocks(h, q)) == 1;
  }

  /** After two appends both entries of the UI-block list are the DTO's property, so both flags are its flag. */
  lemma SingleDtoPropertyFlagsRepeat(h: Helpers, entity: SpiderClass, allEntities: seq<SpiderClass>, dtos: seq<SpiderClass>, p: Property)
    requires ComponentDefined(h, entity, allEntities, dtos)
    requires entity.properties == [] && CustomDtoProperties(dtos, entity.name) == [p]
    ensures var f := ComponentFromViews(h, entity, allEntities, dtos, 1, 2, 3, 4).showFlags;
      forall i :: 0 <= i < |f| ==> f[i] == ShowFlagName(p)
  {
    ViewIsDefined(h, entity, allEntities, dtos, 2);
    assert Repeated([p], 1) == [p] by { assert Repeated([p], 0) == []; }
    assert Repeated([p], 2) == [p, p];
    assert View(entity, dtos, 2) == [p, p];
    var ordered := GetPropertiesForUIBlocks(h, View(entity, dtos, 2));
    FormBlocksOfIndex(h, entity.name, ordered);
    UIBlocksContents(h, View(entity, dtos, 2));
    forall i | 0 <= i < |ordered| ensures ordered[i] == p {
      assert ordered[i] in ordered;
    }
  }

  /**
   * An entity `Person` without properties and a custom DTO `PersonDTO` with one string
   * property: the generated component has one block but declares its show flag twice,
   * and disables one more control than it enables.
   */
  lemma AsWrittenDuplicatesCustomDtoMembers()
    ensures ComponentDefined(WitnessHelpers(), WitnessEntity(), [WitnessEntity()], WitnessDtos())
    ensures var c := ComponentFromViews(WitnessHelpers(), WitnessEntity(), [WitnessEntity()], WitnessDtos(), 1, 2, 3, 4);
      && |c.propertyBlocks| == 1
      && |c.showFlags| == 2
      && c.showFlags[0] == c.showFlags[1]
      && |c.disableLines| == |c.enableLines| + 1
  {
    WitnessDtoLookup();
    WitnessPropertyFacts();
    WitnessDefined();
    SingleDtoPropertyDuplicates(WitnessHelpers(), WitnessEntity(), [WitnessEntity()], WitnessDtos(), WitnessDtoProperty());
  }

  // ---------------------------------------------------------------------
  // The generated file

  /** The generated file: the import lines, then one component per selected entity. */
  datatype GeneratedFile = GeneratedFile(importLines: seq<ImportLine>, components: seq<DetailsComponent>)

  /** Every entity of `entities`, in order, has a component whose lookups succeed. */
  predicate AllComponentsDefined(h: Helpers, entities: seq<SpiderClass>, allEntities: seq<SpiderClass>, dtos: seq<SpiderClass>) {
    entities != [] ==>
      && AllComponentsDefined(h, entities[..|entities| - 1], allEntities, dtos)
      && ComponentDefined(h, entities[|entities| - 1], allEntities, dtos)
  }

  lemma {:induction false} AllComponentsDefinedIndex(h: Helpers, entities: seq<SpiderClass>, allEntities: seq<SpiderClass>, dtos: seq<SpiderClass>, i: nat)
    requires AllComponentsDefined(h, entities, allEntities, dtos) && i < |entities|
    ensures ComponentDefined(h, entities[i], allEntities, dtos)
  {
    if i < |entities| - 1 {
      var init := entities[..|entities| - 1];
      AllComponentsDefinedIndex(h, init, allEntities, dtos, i);
      assert init[i] == entities[i];
    }
  }

  predicate ComponentsDefined(h: Helpers, inputs: GeneratorInputs) {
    AllComponentsDefined(h, ComponentEntities(h, inputs.currentEntities), inputs.allEntities, inputs.customDtos)
  }

  /** The components of a list of entities, each with its custom DTO's properties merged once, in entity order. */
  function ComponentsOf(h: Helpers, entities: seq<SpiderClass>, allEntities: seq<SpiderClass>, dtos: seq<SpiderClass>): (r: seq<DetailsComponent>)
    requires AllComponentsDefined(h, entities, allEntities, dtos)
    ensures |r| == |entities|
  {
    if entities == [] then []
    else ComponentsOf(h, entities[..|entities| - 1], allEntities, dtos)
         + [ComponentFromViews(h, entities[|entities| - 1], allEntities, dtos, 1, 1, 1, 1)]
  }

  lemma {:induction false} AllComponentsDefinedPrefix(h: Helpers, entities: seq<SpiderClass>, n: nat, allEntities: seq<SpiderClass>, dtos: seq<SpiderClass>)
    requires AllComponentsDefined(h, entities, allEntities, dtos) && n <= |entities|
    ensures AllComponentsDefined(h, entities[..n], allEntities, dtos)
  {
    if n < |entities| {
      var init := entities[..|entities| - 1];
      AllComponentsDefinedPrefix(h, init, n, allEntities, dtos);
      assert init[..n] == entities[..n];
    } else {
      assert entities[..n] == entities;
    }
  }

  /** The components of the first `n` entities. */
  function ComponentsPrefix(h: Helpers, entities: seq<SpiderClass>, n: nat, allEntities: seq<SpiderClass>, dtos: seq<SpiderClass>)
    : seq<DetailsComponent>
    requires AllComponentsDefined(h, entities, allEntities, dtos) && n <= |entities|
  {
    AllComponentsDefinedPrefix(h, entities, n, allEntities, dtos);
    ComponentsOf(h, entities[..n], allEntities, dtos)
  }

  lemma ComponentsOfSnoc(h: Helpers, entities: seq<SpiderClass>, i: nat, allEntities: seq<SpiderClass>, dtos: seq<SpiderClass>)
    requires i < |entities|
    requires AllComponentsDefined(h, entities[..i], allEntities, dtos) && ComponentDefined(h, entities[i], allEntities, dtos)
    ensures AllComponentsDefined(h, entities[..i + 1], allEntities, dtos)
    ensures ComponentsOf(h, entities[..i + 1], allEntities, dtos)
      == ComponentsOf(h, entities[..i], allEntities, dtos) + [ComponentFromViews(h, entities[i], allEntities, dtos, 1, 1, 1, 1)]
  {
    assert entities[..i + 1][..i] == entities[..i];
  }

  /** GetAngularBaseDetailsComponents: one component per selected entity, in entity order. */
  method GetAngularBaseDetailsComponents(h: Helpers, inputs: GeneratorInputs) returns (components: seq<DetailsComponent>)
    requires ComponentsDefined(h, inputs)
    ensures components == ComponentsOf(h, ComponentEntities(h, inputs.currentEntities), inputs.allEntities, inputs.customDtos)
  {
    var entities := ComponentEntities(h, inputs.currentEntities);
    components := [];
    var i := 0;
    while i < |entities|
      invariant 0 <= i <= |entities|
      invariant components == ComponentsPrefix(h, entities, i, inputs.allEntities, inputs.customDtos)
    {
      components := AppendComponent(h, entities, i, inputs.allEntities, inputs.customDtos, components);
      i := i + 1;
    }
    assert entities[..i] == entities;
  }

  /** One iteration of GetAngularBaseDetailsComponents: the component of entity `i` is appended. */
  method AppendComponent(h: Helpers, entities: seq<SpiderClass>, i: nat, allEntities: seq<SpiderClass>, dtos: seq<SpiderClass>,
                         components: seq<DetailsComponent>)
    returns (r: seq<DetailsComponent>)
    requires i < |entities| && AllComponentsDefined(h, entities, allEntities, dtos)
    requires components == ComponentsPrefix(h, entities, i, allEntities, dtos)
    ensures r == ComponentsPrefix(h, entities, i + 1, allEntities, dtos)
  {
    AllComponentsDefinedPrefix(h, entities, i, allEntities, dtos);
    AllComponentsDefinedIndex(h, entities, allEntities, dtos, i);
    ComponentsOfSnoc(h, entities, i, allEntities, dtos);
    var c := GenerateComponent(h, entities[i], allEntities, dtos);
    r := components + [c];
  }

  /** Component `i` is the component of selected entity `i`. */
  lemma {:induction false} ComponentsOfIndex(h: Helpers, entities: seq<SpiderClass>, allEntities: seq<SpiderClass>, dtos: seq<SpiderClass>, i: nat)
    requires AllComponentsDefined(h, entities, allEntities, dtos) && i < |entities|
    ensures ComponentDefined(h, entities[i], allEntities, dtos)
    ensures ComponentsOf(h, entities, allEntities, dtos)[i] == ComponentFromViews(h, entities[i], allEntities, dtos, 1, 1, 1, 1)
  {
    if i < |entities| - 1 {
      var init := entities[..|entities| - 1];
      ComponentsOfIndex(h, init, allEntities, dtos, i);
      assert init[i] == entities[i];
    } else {
      AllComponentsDefinedIndex(h, entities, allEntities, dtos, i);
    }
  }

  /** Execute: nothing for a project with at most one class; otherwise the imports and the components. */
  method Execute(h: Helpers, classCount: nat, current: seq<SpiderClass>, referenced: seq<SpiderClass>)
    returns (file: Option<GeneratedFile>)
    requires classCount > 1 ==> ComponentsDefined(h, SelectGeneratorInputs(classCount, current, referenced).value)
    ensures file.None? <==> classCount <= 1
    ensures file.Some? ==>
      var inputs := SelectGeneratorInputs(classCount, current, referenced).value;
      && file.value.importLines == ImportLinesOf(GroupBy(ImportsOf(inputs.customDtos, inputs.allEntities), ImportNamespace))
      && file.value.components == ComponentsOf(h, ComponentEntities(h, inputs.currentEntities), inputs.allEntities, inputs.customDtos)
  {
    var selected := SelectGeneratorInputs(classCount, current, referenced);
    if selected.None? {
      return None;
    }
    var inputs := selected.value;
    var importLines := GetDynamicNgImports(ImportsOf(inputs.customDtos, inputs.allEntities));
    var components := GetAngularBaseDetailsComponents(h, inputs);
    file := Some(GeneratedFile(importLines, components));
  }
}
