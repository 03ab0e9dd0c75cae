/**
 * The per-property member lists of a details component: PrimeNG option variables,
 * autocomplete search methods and upload methods (each a `foreach` that skips some
 * properties and makes a discarded recursive call for ordered one-to-many lists), and
 * the names destructured from the aggregated `forkJoin` fetch (GetForkJoinParameterNames).
 */
module UiMembers {
  import opened Collections
  import opened Metadata
  import opened UiClassifier
  import opened UiBlocks

  // ---------------------------------------------------------------------
  // Option variables, search methods, upload methods

  datatype MemberList =
    | OptionVariables   // GetPrimengOptionVariables: `{camel(Name)}OptionsFor{Entity}: PrimengOption[]`
    | SearchMethods     // GetAutocompleteSearchMethods: `search{Name}For{Entity}(event)`
    | UploadMethods     // GetUploadImageMethods: `upload{Name}For{Entity}(event)`

  /**
   * The properties the list's `Where` drops. The option and search lists test the
   * explicit `UIDoNotGenerate` attribute; the upload list asks the property helper.
   */
  predicate SkipsProperty(h: Helpers, list: MemberList, p: Property) {
    match list
    case UploadMethods => h.propertyHasUIDoNotGenerateAttribute(p)
    case _ => HasAttributeNamed(p.attributes, "UIDoNotGenerate")
  }

  /** The properties for which the list recurses into the target entity and then `continue`s. */
  predicate RecursesInto(h: Helpers, list: MemberList, p: Property) {
    match list
    case UploadMethods => h.hasUIOrderedOneToManyAttribute(p)
    case _ => HasAttributeNamed(p.attributes, "UIOrderedOneToMany")
  }

  /** The control kinds for which the list emits a member. */
  function EmittingKinds(list: MemberList): set<ControlKind> {
    match list
    case OptionVariables => {Autocomplete, Dropdown, MultiAutocomplete, MultiSelect}
    case SearchMethods => {Autocomplete, MultiAutocomplete}
    case UploadMethods => {File}
  }

  function MemberName(h: Helpers, list: MemberList, p: Property, entityName: string): string {
    match list
    case OptionVariables => h.firstCharToLower(p.name) + "OptionsFor" + entityName
    case SearchMethods => "search" + p.name + "For" + entityName
    case UploadMethods => "upload" + p.name + "For" + entityName
  }

  /**
   * The lookups of one iteration do not throw: the target entity of a recursed-into list
   * exists and is unique (`SingleOrDefault` then `.Properties`), and any other kept
   * property has at most one `UIControlType` attribute.
   */
  predicate MemberDefined(h: Helpers, list: MemberList, p: Property, entities: seq<SpiderClass>) {
    !SkipsProperty(h, list, p) ==>
      if RecursesInto(h, list, p) then |OrderedTargets(h, p, entities)| == 1
      else AtMostOneNamed(p.attributes, "UIControlType")
  }

  predicate MembersDefined(h: Helpers, list: MemberList, properties: seq<Property>, entities: seq<SpiderClass>) {
    forall p :: p in properties ==> MemberDefined(h, list, p, entities)
  }

  /**
   * Whether a property adds a member to the list: it is kept, not recursed into, and its
   * control kind is one the list emits for. (The `false` is the case GetUIControlType throws on.)
   */
  predicate EmitsMember(h: Helpers, list: MemberList, p: Property) {
    && !SkipsProperty(h, list, p)
    && !RecursesInto(h, list, p)
    && if AtMostOneNamed(p.attributes, "UIControlType") then GetUIControlType(h, p) in EmittingKinds(list) else false
  }

  /** The members a property list yields, in property order. */
  function MembersOf(h: Helpers, list: MemberList, s: seq<Property>, entityName: string): seq<string> {
    FlatMap(s, MemberStep(h, list, entityName))
  }

  /** The member one property adds: its name when it emits one, nothing otherwise. */
  function MemberOfOne(h: Helpers, list: MemberList, p: Property, entityName: string): seq<string> {
    if EmitsMember(h, list, p) then [MemberName(h, list, p, entityName)] else []
  }

  function MemberStep(h: Helpers, list: MemberList, entityName: string): Property -> seq<string> {
    p => MemberOfOne(h, list, p, entityName)
  }

  /** The shared `foreach` of the three member lists; the recursive call's result is discarded. */
  method CollectMembers(h: Helpers, list: MemberList, properties: seq<Property>, entityName: string, entities: seq<SpiderClass>)
    returns (names: seq<string>)
    requires MembersDefined(h, list, properties, entities)
    ensures names == MembersOf(h, list, properties, entityName)
  {
    names := [];
    var i := 0;
    while i < |properties|
      invariant 0 <= i <= |properties|
      invariant names == MembersOf(h, list, properties[..i], entityName)
    {
      var p := properties[i];
      assert properties[..i + 1][..i] == properties[..i];
      assert MembersOf(h, list, properties[..i + 1], entityName) == names + MemberOfOne(h, list, p, entityName);
      assert MemberDefined(h, list, p, entities);
      if !SkipsProperty(h, list, p) {
        if RecursesInto(h, list, p) {
          // the item entity is looked up (and must exist) only to recurse into it; nothing is added
          var itemEntity := OrderedTargets(h, p, entities)[0];
        } else {
          var kind := GetUIControlType(h, p);
          if kind in EmittingKinds(list) {
            names := names + [MemberName(h, list, p, entityName)];
          }
        }
      }
      i := i + 1;
    }
    assert properties[..i] == properties;
  }

  /** GetPrimengOptionVariables: one options variable per autocomplete, dropdown or multi control. */
  method GetPrimengOptionVariables(h: Helpers, properties: seq<Property>, entityName: string, entities: seq<SpiderClass>)
    returns (names: seq<string>)
    requires MembersDefined(h, OptionVariables, properties, entities)
    ensures names == MembersOf(h, OptionVariables, properties, entityName)
  {
    names := CollectMembers(h, OptionVariables, properties, entityName, entities);
  }

  /** GetAutocompleteSearchMethods: one search method per autocomplete or multi-autocomplete control. */
  method GetAutocompleteSearchMethods(h: Helpers, properties: seq<Property>, entityName: string, entities: seq<SpiderClass>)
    returns (names: seq<string>)
    requires MembersDefined(h, SearchMethods, properties, entities)
    ensures names == MembersOf(h, SearchMethods, properties, entityName)
  {
    names := CollectMembers(h, SearchMethods, properties, entityName, entities);
  }

  /** GetUploadImageMethods: one upload method per file control. */
  method GetUploadImageMethods(h: Helpers, properties: seq<Property>, entityName: string, entities: seq<SpiderClass>)
    returns (names: seq<string>)
    requires MembersDefined(h, UploadMethods, properties, entities)
    ensures names == MembersOf(h, UploadMethods, properties, entityName)
  {
    names := CollectMembers(h, UploadMethods, properties, entityName, entities);
  }

  /** The members of a concatenation are the members of its parts. */
  lemma MembersOfConcat(h: Helpers, list: MemberList, a: seq<Property>, b: seq<Property>, entityName: string)
    ensures MembersOf(h, list, a + b, entityName) == MembersOf(h, list, a, entityName) + MembersOf(h, list, b, entityName)
  {
    FlatMapConcat(a, b, MemberStep(h, list, entityName));
  }

  /**
   * A property that adds no member (one the list skips, one whose kind it ignores, and in
   * particular an ordered one-to-many list, whose recursive call's result is discarded)
   * leaves the list exactly as it is without that property.
   */
  lemma NonEmittingContributesNothing(h: Helpers, list: MemberList, a: seq<Property>, p: Property, b: seq<Property>, entityName: string)
    requires !EmitsMember(h, list, p)
    ensures MembersOf(h, list, a + [p] + b, entityName) == MembersOf(h, list, a + b, entityName)
  {
    assert MemberStep(h, list, entityName)(p) == [];
    FlatMapSkip(a, p, b, MemberStep(h, list, entityName));
  }

  /** The discarded recursion in particular: an ordered one-to-many list contributes no member. */
  lemma DiscardedRecursionContributesNothing(h: Helpers, list: MemberList, a: seq<Property>, p: Property, b: seq<Property>, entityName: string)
    requires RecursesInto(h, list, p)
    ensures MembersOf(h, list, a + [p] + b, entityName) == MembersOf(h, list, a + b, entityName)
  {
    NonEmittingContributesNothing(h, list, a, p, b, entityName);
  }

  /** A list's members are the names of its emitting properties, in order. */
  lemma MembersAreEmittingProperties(h: Helpers, list: MemberList, s: seq<Property>, entityName: string)
    ensures MembersOf(h, list, s, entityName)
      == Map(Filter(s, p => EmitsMember(h, list, p)), p => MemberName(h, list, p, entityName))
  {
    FlatMapOfOptional(s, MemberStep(h, list, entityName), p => EmitsMember(h, list, p), p => MemberName(h, list, p, entityName));
  }

  /** A name is a member exactly when some emitting property of the list has it. */
  lemma MembersOfExactly(h: Helpers, list: MemberList, s: seq<Property>, entityName: string, n: string)
    ensures n in MembersOf(h, list, s, entityName) <==>
      exists p :: p in s && EmitsMember(h, list, p) && n == MemberName(h, list, p, entityName)
  {
    if n in MembersOf(h, list, s, entityName) {
      var p := MemberHasProperty(h, list, s, entityName, n);
    }
    if exists p :: p in s && EmitsMember(h, list, p) && n == MemberName(h, list, p, entityName) {
      var p :| p in s && EmitsMember(h, list, p) && n == MemberName(h, list, p, entityName);
      PropertyHasMember(h, list, s, entityName, p);
    }
  }

  /** Every member is the name of an emitting property. */
  lemma MemberHasProperty(h: Helpers, list: MemberList, s: seq<Property>, entityName: string, n: string) returns (p: Property)
    requires n in MembersOf(h, list, s, entityName)
    ensures p in s && EmitsMember(h, list, p) && n == MemberName(h, list, p, entityName)
  {
    MembersAreEmittingProperties(h, list, s, entityName);
    var emitting := Filter(s, q => EmitsMember(h, list, q));
    p := MapSource(emitting, q => MemberName(h, list, q, entityName), n);
    FilterMembership(s, q => EmitsMember(h, list, q), p);
  }

  /** Every emitting property's name is a member. */
  lemma PropertyHasMember(h: Helpers, list: MemberList, s: seq<Property>, entityName: string, p: Property)
    requires p in s && EmitsMember(h, list, p)
    ensures MemberName(h, list, p, entityName) in MembersOf(h, list, s, entityName)
  {
    MembersAreEmittingProperties(h, list, s, entityName);
    var emitting := Filter(s, q => EmitsMember(h, list, q));
    FilterMembership(s, q => EmitsMember(h, list, q), p);
    MapMember(emitting, q => MemberName(h, list, q, entityName), p);
  }

  /** There is one member per emitting property. */
  lemma MembersOfCount(h: Helpers, list: MemberList, s: seq<Property>, entityName: string)
    ensures |MembersOf(h, list, s, entityName)| == CountWhere(s, p => EmitsMember(h, list, p))
  {
    MembersAreEmittingProperties(h, list, s, entityName);
  }

  /**
   * Every search method assigns an options variable that the component declares: a
   * property with a search method also has an options variable.
   */
  lemma SearchMethodsHaveOptions(h: Helpers, s: seq<Property>, entityName: string)
    ensures forall p :: p in s && EmitsMember(h, SearchMethods, p) ==>
      MemberName(h, OptionVariables, p, entityName) in MembersOf(h, OptionVariables, s, entityName)
  {
    forall p | p in s && EmitsMember(h, SearchMethods, p)
      ensures MemberName(h, OptionVariables, p, entityName) in MembersOf(h, OptionVariables, s, entityName)
    {
      assert EmitsMember(h, OptionVariables, p);
      MembersOfExactly(h, OptionVariables, s, entityName, MemberName(h, OptionVariables, p, entityName));
    }
  }

  // ---------------------------------------------------------------------
  // forkJoin parameters

  /** The properties fetched alongside the entity: ordered one-to-many lists and multi controls. */
  predicate JoinsFetch(h: Helpers, p: Property) {
    h.hasUIOrderedOneToManyAttribute(p) || IsMultiControl(h, p)
  }

  /** `{camel(Name)}For{Entity}`: a fetched property's key and destructured name. */
  function ForkJoinName(h: Helpers, p: Property, entityName: string): string {
    h.firstCharToLower(p.name) + "For" + entityName
  }

  /** The names of the fetched properties, in declaration order. */
  function ForkJoinNamesOf(h: Helpers, s: seq<Property>, entityName: string): seq<string> {
    if s == [] then []
    else
      var p := s[|s| - 1];
      ForkJoinNamesOf(h, s[..|s| - 1], entityName) + (if JoinsFetch(h, p) then [ForkJoinName(h, p, entityName)] else [])
  }

  /** GetForkJoinParameterNames: the entity's own name, then one name per fetched property. */
  method GetForkJoinParameterNames(h: Helpers, entity: SpiderClass) returns (names: seq<string>)
    ensures names == [h.firstCharToLower(entity.name)] + ForkJoinNamesOf(h, entity.properties, entity.name)
  {
    names := [h.firstCharToLower(entity.name)];
    var i := 0;
    while i < |entity.properties|
      invariant 0 <= i <= |entity.properties|
      invariant names == [h.firstCharToLower(entity.name)] + ForkJoinNamesOf(h, entity.properties[..i], entity.name)
    {
      var p := entity.properties[i];
      assert entity.properties[..i + 1][..i] == entity.properties[..i];
      if h.hasUIOrderedOneToManyAttribute(p) || h.isMultiSelectControlType(p) || h.isMultiAutocompleteControlType(p) {
        names := names + [ForkJoinName(h, p, entity.name)];
      }
      i := i + 1;
    }
    assert entity.properties[..i] == entity.properties;
  }

  /** The fetched names are the fetched properties' names, in order: one per fetched property. */
  lemma {:induction false} ForkJoinNamesAreFetchedProperties(h: Helpers, s: seq<Property>, entityName: string)
    ensures ForkJoinNamesOf(h, s, entityName)
      == Map(Filter(s, p => JoinsFetch(h, p)), p => ForkJoinName(h, p, entityName))
  {
    if s != [] {
      var init := s[..|s| - 1];
      var last := s[|s| - 1];
      ForkJoinNamesAreFetchedProperties(h, init, entityName);
      assert s == init + [last];
      FilterConcat(init, [last], p => JoinsFetch(h, p));
      MapConcat(Filter(init, p => JoinsFetch(h, p)), Filter([last], p => JoinsFetch(h, p)), p => ForkJoinName(h, p, entityName));
    }
  }

  /** The list starts with the entity's name and has one more name per fetched property. */
  lemma ForkJoinNamesShape(h: Helpers, entity: SpiderClass)
    ensures var names := [h.firstCharToLower(entity.name)] + ForkJoinNamesOf(h, entity.properties, entity.name);
      && names[0] == h.firstCharToLower(entity.name)
      && |names| == 1 + CountWhere(entity.properties, p => JoinsFetch(h, p))
  {
    ForkJoinNamesAreFetchedProperties(h, entity.properties, entity.name);
  }

  /**
   * The keys of the `forkJoin({…})` object: the entity, then the ordered one-to-many lists
   * (GetOrderedOneToManyForkJoinParameters), then the multi controls
   * (GetManyToManyMultiControlTypesForkJoinParameters).
   */
  function ForkJoinKeys(h: Helpers, entity: SpiderClass): seq<string> {
    [h.firstCharToLower(entity.name)]
    + Map(h.getOrderedOneToManyProperties(entity), p => ForkJoinName(h, p, entity.name))
    + Map(Filter(entity.properties, p => IsMultiControl(h, p)), p => ForkJoinName(h, p, entity.name))
  }

  /**
   * Every name the `subscribe` callback destructures is a key of the fetched object and
   * every key is destructured, provided the entity's ordered one-to-many properties are
   * exactly its properties with the ordered one-to-many attribute.
   */
  lemma ForkJoinNamesMatchKeys(h: Helpers, entity: SpiderClass, n: string)
    requires forall p :: p in h.getOrderedOneToManyProperties(entity) <==>
      p in entity.properties && h.hasUIOrderedOneToManyAttribute(p)
    ensures n in [h.firstCharToLower(entity.name)] + ForkJoinNamesOf(h, entity.properties, entity.name)
        <==> n in ForkJoinKeys(h, entity)
  {
    ForkJoinNamesAreFetchedProperties(h, entity.properties, entity.name);
    if n in [h.firstCharToLower(entity.name)] + ForkJoinNamesOf(h, entity.properties, entity.name) {
      DestructuredNameIsKey(h, entity, n);
    }
    if n in ForkJoinKeys(h, entity) {
      KeyIsDestructured(h, entity, n);
    }
  }

  lemma DestructuredNameIsKey(h: Helpers, entity: SpiderClass, n: string)
    requires forall p :: p in h.getOrderedOneToManyProperties(entity) <==>
      p in entity.properties && h.hasUIOrderedOneToManyAttribute(p)
    requires n in [h.firstCharToLower(entity.name)]
      + Map(Filter(entity.properties, p => JoinsFetch(h, p)), p => ForkJoinName(h, p, entity.name))
    ensures n in ForkJoinKeys(h, entity)
  {
    var s, first := entity.properties, h.firstCharToLower(entity.name);
    var name := p => ForkJoinName(h, p, entity.name);
    var ordered, multi := h.getOrderedOneToManyProperties(entity), Filter(s, p => IsMultiControl(h, p));
    assert ForkJoinKeys(h, entity) == [first] + Map(ordered, name) + Map(multi, name);
    if n != first {
      var p := MapSource(Filter(s, p => JoinsFetch(h, p)), name, n);
      FilterMembership(s, p => JoinsFetch(h, p), p);
      if h.hasUIOrderedOneToManyAttribute(p) {
        MapMember(ordered, name, p);
      } else {
        FilterMembership(s, p => IsMultiControl(h, p), p);
        MapMember(multi, name, p);
      }
    }
  }

  lemma KeyIsDestructured(h: Helpers, entity: SpiderClass, n: string)
    requires forall p :: p in h.getOrderedOneToManyProperties(entity) <==>
      p in entity.properties && h.hasUIOrderedOneToManyAttribute(p)
    requires n in ForkJoinKeys(h, entity)
    ensures n in [h.firstCharToLower(entity.name)]
      + Map(Filter(entity.properties, p => JoinsFetch(h, p)), p => ForkJoinName(h, p, entity.name))
  {
    var s, first := entity.properties, h.firstCharToLower(entity.name);
    var name := p => ForkJoinName(h, p, entity.name);
    var ordered, multi := h.getOrderedOneToManyProperties(entity), Filter(s, p => IsMultiControl(h, p));
    var fetched := Filter(s, p => JoinsFetch(h, p));
    assert ForkJoinKeys(h, entity) == [first] + Map(ordered, name) + Map(multi, name);
    if n != first {
      var p;
      if n in Map(ordered, name) {
        p := MapSource(ordered, name, n);
      } else {
        p := MapSource(multi, name, n);
        FilterMembership(s, p => IsMultiControl(h, p), p);
      }
      FilterMembership(s, p => JoinsFetch(h, p), p);
      MapMember(fetched, name, p);
    }
  }
}
