/**
 * The Web API controller generator: which controller classes are emitted, one per
 * controller name that has a business service, and which endpoints each entity gets.
 * Endpoints are modelled by their HTTP verb, their action name, the authorize argument
 * they pass to the business service and whether they carry `[AuthGuard]`; the C# text
 * around them is not modelled.
 */
module Controllers {
  import opened Wrappers
  import opened Collections
  import opened Strings
  import opened Metadata
  import opened Results

  datatype HttpVerb = HttpGet | HttpPost | HttpPut | HttpDelete

  /** One generated controller action. */
  datatype Endpoint = Endpoint(verb: HttpVerb, name: string, authorize: string, authGuard: bool)

  /** The exceptions the generator throws, as values. */
  datatype GenError =
    | MissingRelationTarget(entityName: string, propertyName: string)   // no entity of the property's type
    | AmbiguousRelationTarget(entityName: string, propertyName: string) // several entities of that name
    | AmbiguousBusinessService(controllerName: string)                  // several matching business services

  /** Every template below carries `[AuthGuard]`. */
  function Guarded(verb: HttpVerb, name: string, authorize: string): Endpoint {
    Endpoint(verb, name, authorize, true)
  }

  // ---------------------------------------------------------------------
  // Helpers of the generator

  /** ShouldAuthorizeEntity: the C# literal `(!HasDoNotAuthorizeAttribute).ToString().ToLower()`. */
  function ShouldAuthorizeEntity(h: Helpers, entity: SpiderClass): (r: string)
    ensures r == "false" <==> h.hasDoNotAuthorizeAttribute(entity)
    ensures r == "true" || r == "false"
  {
    if !h.hasDoNotAuthorizeAttribute(entity) then "true" else "false"
  }

  /** GetBusinessServiceClassName: the security service is generic over `UserExtended`. */
  function GetBusinessServiceClassName(businessServiceName: string): (r: string)
    ensures StartsWith(r, businessServiceName)
    ensures r == businessServiceName <==> !Contains(businessServiceName, "Security")
    ensures r != businessServiceName ==> r == businessServiceName + "<UserExtended>"
  {
    if Contains(businessServiceName, "Security") then businessServiceName + "<UserExtended>" else businessServiceName
  }

  /** The entities named as the property's (element) type. */
  function RelationTargets(h: Helpers, p: Property, allEntities: seq<SpiderClass>): seq<SpiderClass> {
    Filter(allEntities, (x: SpiderClass) => x.name == h.extractTypeFromGenericType(p.typeName))
  }

  /**
   * The related entity the relation endpoints look up with `Single()` or with
   * `SingleOrDefault()` followed by a dereference: both throw unless there is exactly one.
   */
  function RelationTarget(h: Helpers, entity: SpiderClass, p: Property, allEntities: seq<SpiderClass>): (r: Result<SpiderClass, GenError>)
    ensures r.Success? <==> |RelationTargets(h, p, allEntities)| == 1
    ensures r.Success? ==> r.value in allEntities && r.value.name == h.extractTypeFromGenericType(p.typeName)
    ensures r.Failure? && RelationTargets(h, p, allEntities) == [] ==> r.error == MissingRelationTarget(entity.name, p.name)
    ensures r.Failure? && RelationTargets(h, p, allEntities) != [] ==> r.error == AmbiguousRelationTarget(entity.name, p.name)
  {
    var targets := RelationTargets(h, p, allEntities);
    if targets == [] then Failure(MissingRelationTarget(entity.name, p.name))
    else if |targets| > 1 then Failure(AmbiguousRelationTarget(entity.name, p.name))
    else
      assert targets[0] in targets;
      Success(targets[0])
  }

  // ---------------------------------------------------------------------
  // Read endpoints every non-join entity gets

  function ReadEndpoints(h: Helpers, entity: SpiderClass): (r: seq<Endpoint>)
    ensures |r| == 4
    ensures forall i :: 0 <= i < |r| ==> r[i].authorize == ShouldAuthorizeEntity(h, entity)
  {
    var auth := ShouldAuthorizeEntity(h, entity);
    [ Guarded(HttpPost, "Get" + entity.name + "TableData", auth),
      Guarded(HttpPost, "Export" + entity.name + "TableDataToExcel", auth),
      Guarded(HttpGet, "Get" + entity.name + "List", auth),
      Guarded(HttpGet, "Get" + entity.name, auth) ]
  }

  // ---------------------------------------------------------------------
  // Many-to-one: autocomplete and dropdown

  function AutocompleteEndpoint(h: Helpers, entity: SpiderClass, p: Property): Endpoint {
    Guarded(HttpGet, "Get" + p.name + "AutocompleteListFor" + entity.name, ShouldAuthorizeEntity(h, entity))
  }

  function DropdownEndpoint(h: Helpers, entity: SpiderClass, p: Property): Endpoint {
    Guarded(HttpGet, "Get" + p.name + "DropdownListFor" + entity.name, ShouldAuthorizeEntity(h, entity))
  }

  /**
   * The many-to-one endpoints of one property: the autocomplete and the dropdown endpoint
   * are decided independently, autocomplete first, and each needs the related entity.
   */
  function ManyToOneEndpointsFor(h: Helpers, entity: SpiderClass, p: Property, allEntities: seq<SpiderClass>): (r: Result<seq<Endpoint>, GenError>)
    ensures var auto := h.shouldGenerateAutocompleteControllerMethod(p);
            var drop := h.shouldGenerateDropdownControllerMethod(p);
      && (r.Success? <==> (!auto && !drop) || |RelationTargets(h, p, allEntities)| == 1)
      && (r.Success? ==>
            && |r.value| == (if auto then 1 else 0) + (if drop then 1 else 0)
            && (auto ==> r.value[0] == AutocompleteEndpoint(h, entity, p))
            && (drop ==> r.value[|r.value| - 1] == DropdownEndpoint(h, entity, p)))
  {
    var auto := h.shouldGenerateAutocompleteControllerMethod(p);
    var drop := h.shouldGenerateDropdownControllerMethod(p);
    if !auto && !drop then Success([])
    else
      var _ :- RelationTarget(h, entity, p, allEntities);
      Success((if auto then [AutocompleteEndpoint(h, entity, p)] else [])
              + (if drop then [DropdownEndpoint(h, entity, p)] else []))
  }

  function ManyToOneStep(h: Helpers, entity: SpiderClass, allEntities: seq<SpiderClass>): Property -> Result<seq<Endpoint>, GenError> {
    p => ManyToOneEndpointsFor(h, entity, p, allEntities)
  }

  /** The loop body of GetManyToOneReadMethods for one property. */
  method AppendManyToOneMethods(h: Helpers, entity: SpiderClass, p: Property, allEntities: seq<SpiderClass>) returns (part: Result<seq<Endpoint>, GenError>)
    ensures part == ManyToOneEndpointsFor(h, entity, p, allEntities)
  {
    var endpoints: seq<Endpoint> := [];
    if h.shouldGenerateAutocompleteControllerMethod(p) {
      var target := RelationTarget(h, entity, p, allEntities);
      if target.Failure? {
        return Failure(target.error);
      }
      endpoints := endpoints + [AutocompleteEndpoint(h, entity, p)];
    }
    assert endpoints == if h.shouldGenerateAutocompleteControllerMethod(p) then [AutocompleteEndpoint(h, entity, p)] else [];
    if h.shouldGenerateDropdownControllerMethod(p) {
      var target := RelationTarget(h, entity, p, allEntities);
      if target.Failure? {
        return Failure(target.error);
      }
      endpoints := endpoints + [DropdownEndpoint(h, entity, p)];
    }
    assert endpoints == (if h.shouldGenerateAutocompleteControllerMethod(p) then [AutocompleteEndpoint(h, entity, p)] else [])
                        + (if h.shouldGenerateDropdownControllerMethod(p) then [DropdownEndpoint(h, entity, p)] else []);
    assert h.shouldGenerateAutocompleteControllerMethod(p) || h.shouldGenerateDropdownControllerMethod(p) ==>
      RelationTarget(h, entity, p, allEntities).Success?;
    return Success(endpoints);
  }

  /** GetManyToOneReadMethods: the many-to-one endpoints of the entity's properties, in property order. */
  method GetManyToOneReadMethods(h: Helpers, entity: SpiderClass, allEntities: seq<SpiderClass>) returns (r: Result<seq<Endpoint>, GenError>)
    ensures r == FlatMapResult(entity.properties, ManyToOneStep(h, entity, allEntities))
  {
    var properties := entity.properties;
    var step := ManyToOneStep(h, entity, allEntities);
    var result: seq<Endpoint> := [];
    var i := 0;
    while i < |properties|
      invariant 0 <= i <= |properties|
      invariant FlatMapResult(properties[..i], step) == Success(result)
    {
      var part := AppendManyToOneMethods(h, entity, properties[i], allEntities);
      assert step(properties[i]) == part;
      if part.Failure? {
        FlatMapResultStopsAt(properties, step, i);
        return Failure(part.error);
      }
      FlatMapResultStep(properties, step, i);
      result := result + part.value;
      i := i + 1;
    }
    assert properties[..i] == properties;
    return Success(result);
  }

  // ---------------------------------------------------------------------
  // Many-to-many: namebook or lazily loaded table

  function NamebookEndpoint(entity: SpiderClass, p: Property): Endpoint {
    Guarded(HttpGet, "Get" + p.name + "NamebookListFor" + entity.name, "false")
  }

  function LazyTableEndpoints(h: Helpers, entity: SpiderClass, p: Property): seq<Endpoint> {
    [ Guarded(HttpPost, "Get" + p.name + "TableDataFor" + entity.name, "false"),
      Guarded(HttpPost, "Export" + p.name + "TableDataToExcelFor" + entity.name, "false"),
      Guarded(HttpPost, "LazyLoadSelected" + p.name + "IdsFor" + entity.name, ShouldAuthorizeEntity(h, entity)) ]
  }

  /**
   * The many-to-many endpoints of one property: a multi-select or multi-autocomplete
   * property gets the namebook endpoint, and only otherwise a lazily loaded table property
   * gets the table endpoints; both need the related entity.
   */
  function ManyToManyEndpointsFor(h: Helpers, entity: SpiderClass, p: Property, allEntities: seq<SpiderClass>): (r: Result<seq<Endpoint>, GenError>)
    ensures var multi := h.isMultiSelectControlType(p) || h.isMultiAutocompleteControlType(p);
            var lazy := h.hasSimpleManyToManyTableLazyLoadAttribute(p);
      && (r.Success? <==> (!multi && !lazy) || |RelationTargets(h, p, allEntities)| == 1)
      && (r.Success? && multi ==> r.value == [NamebookEndpoint(entity, p)])
      && (r.Success? && !multi && lazy ==> r.value == LazyTableEndpoints(h, entity, p))
      && (!multi && !lazy ==> r == Success([]))
  {
    if h.isMultiSelectControlType(p) || h.isMultiAutocompleteControlType(p) then
      var _ :- RelationTarget(h, entity, p, allEntities);
      Success([NamebookEndpoint(entity, p)])
    else if h.hasSimpleManyToManyTableLazyLoadAttribute(p) then
      var _ :- RelationTarget(h, entity, p, allEntities);
      Success(LazyTableEndpoints(h, entity, p))
    else Success([])
  }

  function ManyToManyStep(h: Helpers, entity: SpiderClass, allEntities: seq<SpiderClass>): Property -> Result<seq<Endpoint>, GenError> {
    p => ManyToManyEndpointsFor(h, entity, p, allEntities)
  }

  /** The loop body of GetManyToManyControllerMethods for one property. */
  method AppendManyToManyMethods(h: Helpers, entity: SpiderClass, p: Property, allEntities: seq<SpiderClass>) returns (part: Result<seq<Endpoint>, GenError>)
    ensures part == ManyToManyEndpointsFor(h, entity, p, allEntities)
  {
    if h.isMultiSelectControlType(p) || h.isMultiAutocompleteControlType(p) {
      var target := RelationTarget(h, entity, p, allEntities);
      if target.Failure? {
        return Failure(target.error);
      }
      return Success([NamebookEndpoint(entity, p)]);
    } else if h.hasSimpleManyToManyTableLazyLoadAttribute(p) {
      var target := RelationTarget(h, entity, p, allEntities);
      if target.Failure? {
        return Failure(target.error);
      }
      return Success(LazyTableEndpoints(h, entity, p));
    }
    return Success([]);
  }

  /** GetManyToManyControllerMethods: the many-to-many endpoints of the entity's properties, in property order. */
  method GetManyToManyControllerMethods(h: Helpers, entity: SpiderClass, allEntities: seq<SpiderClass>) returns (r: Result<seq<Endpoint>, GenError>)
    ensures r == FlatMapResult(entity.properties, ManyToManyStep(h, entity, allEntities))
  {
    var properties := entity.properties;
    var step := ManyToManyStep(h, entity, allEntities);
    var result: seq<Endpoint> := [];
    var i := 0;
    while i < |properties|
      invariant 0 <= i <= |properties|
      invariant FlatMapResult(properties[..i], step) == Success(result)
    {
      var part := AppendManyToManyMethods(h, entity, properties[i], allEntities);
      assert step(properties[i]) == part;
      if part.Failure? {
        FlatMapResultStopsAt(properties, step, i);
        return Failure(part.error);
      }
      FlatMapResultStep(properties, step, i);
      result := result + part.value;
      i := i + 1;
    }
    assert properties[..i] == properties;
    return Success(result);
  }

  // ---------------------------------------------------------------------
  // Ordered one-to-many lists and blobs

  function OrderedEndpoint(entity: SpiderClass, p: Property): Endpoint {
    Guarded(HttpGet, "GetOrdered" + p.name + "For" + entity.name, "false")
  }

  /** GetOrderedOneToManyControllerMethods: one ordered-fetch endpoint per ordered one-to-many property, in order. */
  method GetOrderedOneToManyControllerMethods(h: Helpers, entity: SpiderClass) returns (r: seq<Endpoint>)
    ensures var ordered := h.getUIOrderedOneToManyProperties(entity);
      && |r| == |ordered|
      && forall i :: 0 <= i < |ordered| ==> r[i] == OrderedEndpoint(entity, ordered[i])
  {
    var ordered := h.getUIOrderedOneToManyProperties(entity);
    r := [];
    var i := 0;
    while i < |ordered|
      invariant 0 <= i <= |ordered|
      invariant |r| == i
      invariant forall j :: 0 <= j < i ==> r[j] == OrderedEndpoint(entity, ordered[j])
    {
      r := r + [OrderedEndpoint(entity, ordered[i])];
      i := i + 1;
    }
  }

  function UploadEndpoint(h: Helpers, entity: SpiderClass, p: Property): Endpoint {
    Guarded(HttpPost, "Upload" + p.name + "For" + entity.name, ShouldAuthorizeEntity(h, entity))
  }

  /** GetUploadBlobControllerMethods: one upload endpoint per blob property, in order. */
  method GetUploadBlobControllerMethods(h: Helpers, entity: SpiderClass) returns (r: seq<Endpoint>)
    ensures var blobs := h.getBlobProperties(entity.properties);
      && |r| == |blobs|
      && forall i :: 0 <= i < |blobs| ==> r[i] == UploadEndpoint(h, entity, blobs[i])
  {
    var blobs := h.getBlobProperties(entity.properties);
    r := [];
    var i := 0;
    while i < |blobs|
      invariant 0 <= i <= |blobs|
      invariant |r| == i
      invariant forall j :: 0 <= j < i ==> r[j] == UploadEndpoint(h, entity, blobs[j])
    {
      r := r + [UploadEndpoint(h, entity, blobs[i])];
      i := i + 1;
    }
  }

  // ---------------------------------------------------------------------
  // Save and delete

  /** GetSaveControllerMethods: no save endpoint (null) for a read-only entity. */
  function GetSaveControllerMethods(h: Helpers, entity: SpiderClass): (r: Option<Endpoint>)
    ensures r.None? <==> h.isReadonlyObject(entity)
    ensures r.Some? ==> r.value.verb == HttpPut && r.value.name == "Save" + entity.name
                        && r.value.authorize == ShouldAuthorizeEntity(h, entity) && r.value.authGuard
  {
    if h.isReadonlyObject(entity) then None
    else Some(Guarded(HttpPut, "Save" + entity.name, ShouldAuthorizeEntity(h, entity)))
  }

  /** GetDeleteControllerMethods: no delete endpoint (null) for a read-only entity. */
  function GetDeleteControllerMethods(h: Helpers, entity: SpiderClass): (r: Option<Endpoint>)
    ensures r.None? <==> h.isReadonlyObject(entity)
    ensures r.Some? ==> r.value.verb == HttpDelete && r.value.name == "Delete" + entity.name
                        && r.value.authorize == ShouldAuthorizeEntity(h, entity) && r.value.authGuard
  {
    if h.isReadonlyObject(entity) then None
    else Some(Guarded(HttpDelete, "Delete" + entity.name, ShouldAuthorizeEntity(h, entity)))
  }

  function OptionToSeq<T>(o: Option<T>): seq<T> {
    if o.Some? then [o.value] else []
  }

  // ---------------------------------------------------------------------
  // One entity's region

  /** The `#region {Entity}` block of a controller, in template order. */
  datatype EntityRegion = EntityRegion(
    entityName: string,
    readEndpoints: seq<Endpoint>,
    manyToOne: seq<Endpoint>,
    ordered: seq<Endpoint>,
    manyToMany: seq<Endpoint>,
    save: Option<Endpoint>,
    uploads: seq<Endpoint>,
    delete: Option<Endpoint>)
  {
    function Endpoints(): seq<Endpoint> {
      readEndpoints + manyToOne + ordered + manyToMany + OptionToSeq(save) + uploads + OptionToSeq(delete)
    }
  }

  function OrderedEndpoints(h: Helpers, entity: SpiderClass): seq<Endpoint> {
    Map(h.getUIOrderedOneToManyProperties(entity), (p: Property) => OrderedEndpoint(entity, p))
  }

  function UploadEndpoints(h: Helpers, entity: SpiderClass): seq<Endpoint> {
    Map(h.getBlobProperties(entity.properties), (p: Property) => UploadEndpoint(h, entity, p))
  }

  /**
   * The region of a non-join entity: the four reads, whatever its read-only flag says, and
   * save and delete only when it is not read-only; a failing relation lookup throws, the
   * many-to-one ones first.
   */
  function EntityRegionOf(h: Helpers, entity: SpiderClass, allEntities: seq<SpiderClass>): (r: Result<EntityRegion, GenError>)
    ensures r.Success? <==> (FlatMapResult(entity.properties, ManyToOneStep(h, entity, allEntities)).Success?
                             && FlatMapResult(entity.properties, ManyToManyStep(h, entity, allEntities)).Success?)
    ensures r.Success? ==>
      && r.value.entityName == entity.name
      && r.value.readEndpoints == ReadEndpoints(h, entity)
      && (r.value.save.None? <==> h.isReadonlyObject(entity))
      && (r.value.delete.None? <==> h.isReadonlyObject(entity))
  {
    var manyToOne :- FlatMapResult(entity.properties, ManyToOneStep(h, entity, allEntities));
    var manyToMany :- FlatMapResult(entity.properties, ManyToManyStep(h, entity, allEntities));
    Success(EntityRegion(entity.name, ReadEndpoints(h, entity), manyToOne, OrderedEndpoints(h, entity), manyToMany,
                         GetSaveControllerMethods(h, entity), UploadEndpoints(h, entity), GetDeleteControllerMethods(h, entity)))
  }

  /** A join entity contributes no region; any other entity contributes its own. */
  function RegionsFor(h: Helpers, entity: SpiderClass, allEntities: seq<SpiderClass>): Result<seq<EntityRegion>, GenError> {
    if h.isManyToMany(entity) then Success([])
    else
      var region :- EntityRegionOf(h, entity, allEntities);
      Success([region])
  }

  function RegionStep(h: Helpers, allEntities: seq<SpiderClass>): SpiderClass -> Result<seq<EntityRegion>, GenError> {
    e => RegionsFor(h, e, allEntities)
  }

  /** GetControllerMethods: the regions of a controller's entities, in entity order, join entities skipped. */
  method GetControllerMethods(h: Helpers, grouped: seq<SpiderClass>, allEntities: seq<SpiderClass>) returns (r: Result<seq<EntityRegion>, GenError>)
    ensures r == FlatMapResult(grouped, RegionStep(h, allEntities))
  {
    var step := RegionStep(h, allEntities);
    var result: seq<EntityRegion> := [];
    var i := 0;
    while i < |grouped|
      invariant 0 <= i <= |grouped|
      invariant FlatMapResult(grouped[..i], step) == Success(result)
    {
      var entity := grouped[i];
      if h.isManyToMany(entity) {
        assert step(entity) == Success([]);
        FlatMapResultStep(grouped, step, i);
        result := result + [];
        i := i + 1;
        continue;
      }
      var manyToOne := GetManyToOneReadMethods(h, entity, allEntities);
      if manyToOne.Failure? {
        assert step(entity) == Failure(manyToOne.error);
        FlatMapResultStopsAt(grouped, step, i);
        return Failure(manyToOne.error);
      }
      var ordered := GetOrderedOneToManyControllerMethods(h, entity);
      var manyToMany := GetManyToManyControllerMethods(h, entity, allEntities);
      if manyToMany.Failure? {
        assert step(entity) == Failure(manyToMany.error);
        FlatMapResultStopsAt(grouped, step, i);
        return Failure(manyToMany.error);
      }
      var uploads := GetUploadBlobControllerMethods(h, entity);
      var region := EntityRegion(entity.name, ReadEndpoints(h, entity), manyToOne.value, ordered, manyToMany.value,
                                 GetSaveControllerMethods(h, entity), uploads, GetDeleteControllerMethods(h, entity));
      assert ordered == OrderedEndpoints(h, entity);
      assert uploads == UploadEndpoints(h, entity);
      assert step(entity) == Success([region]);
      FlatMapResultStep(grouped, step, i);
      result := result + [region];
      i := i + 1;
    }
    assert grouped[..i] == grouped;
    return Success(result);
  }

  // ---------------------------------------------------------------------
  // Controller classes

  /** One `{ControllerName}BaseController` class. */
  datatype ControllerClass = ControllerClass(
    controllerName: string,
    servicesNamespace: string,
    serviceTypeName: string,   // GetBusinessServiceClassName of the service
    serviceName: string,
    regions: seq<EntityRegion>)

  /** The services namespace of an entity namespace. */
  function ServicesNamespace(entityNamespace: string): string {
    ReplaceAll(entityNamespace, ".Entities", ".Services")
  }

  /** A generated business service of the namespace, not the authorization one. */
  predicate IsBusinessServiceOf(s: SpiderClass, servicesNamespace: string) {
    && s.baseType.Some?
    && s.namespace == servicesNamespace
    && Contains(s.baseType.value, "BusinessServiceGenerated")
    && !Contains(s.baseType.value, "AuthorizationBusinessServiceGenerated")
  }

  function BusinessServicesFor(g: Group<string, SpiderClass>, services: seq<SpiderClass>): seq<SpiderClass>
    requires g.members != []
  {
    Filter(services, (s: SpiderClass) => IsBusinessServiceOf(s, ServicesNamespace(g.members[0].namespace)))
  }

  function ControllerClassFor(h: Helpers, g: Group<string, SpiderClass>, service: SpiderClass, regions: seq<EntityRegion>): ControllerClass
    requires g.members != []
  {
    ControllerClass(g.key, ServicesNamespace(g.members[0].namespace), GetBusinessServiceClassName(service.name), service.name, regions)
  }

  /**
   * The class of one controller-name group: none when no business service matches (the
   * group is skipped), an exception when several do, otherwise the class with the regions
   * of the group's entities. (A group from `GroupBy` is never empty.)
   */
  function ClassesFor(h: Helpers, g: Group<string, SpiderClass>, allEntities: seq<SpiderClass>, services: seq<SpiderClass>): (r: Result<seq<ControllerClass>, GenError>)
    ensures g.members != [] && r.Success? ==> |r.value| <= 1
    ensures g.members != [] && r.Success? ==> (r.value != [] <==> |BusinessServicesFor(g, services)| == 1)
    ensures g.members != [] && r.Success? && r.value != [] ==>
      FlatMapResult(g.members, RegionStep(h, allEntities)).Success? &&
      r.value[0] == ControllerClassFor(h, g, BusinessServicesFor(g, services)[0], FlatMapResult(g.members, RegionStep(h, allEntities)).value)
    ensures g.members != [] && BusinessServicesFor(g, services) == [] ==> r == Success([])
    ensures g.members != [] && |BusinessServicesFor(g, services)| == 1 ==>
      (r.Success? <==> FlatMapResult(g.members, RegionStep(h, allEntities)).Success?)
    ensures g.members != [] && |BusinessServicesFor(g, services)| > 1 ==> r == Failure(AmbiguousBusinessService(g.key))
    ensures forall c :: r.Success? && c in r.value ==> c.controllerName == g.key
  {
    if g.members == [] then Success([])
    else
      var matching := BusinessServicesFor(g, services);
      if matching == [] then Success([])
      else if |matching| > 1 then Failure(AmbiguousBusinessService(g.key))
      else
        var regions :- FlatMapResult(g.members, RegionStep(h, allEntities));
        Success([ControllerClassFor(h, g, matching[0], regions)])
  }

  function ClassStep(h: Helpers, allEntities: seq<SpiderClass>, services: seq<SpiderClass>): Group<string, SpiderClass> -> Result<seq<ControllerClass>, GenError> {
    g => ClassesFor(h, g, allEntities, services)
  }

  function ControllerName(c: SpiderClass): string {
    c.controllerName
  }

  function ControllerGroups(entities: seq<SpiderClass>): seq<Group<string, SpiderClass>> {
    GroupBy(entities, ControllerName)
  }

  /** The controller classes of the entities, given the services they may use. */
  function ControllerClassesOf(h: Helpers, entities: seq<SpiderClass>, services: seq<SpiderClass>): Result<seq<ControllerClass>, GenError> {
    FlatMapResult(ControllerGroups(entities), ClassStep(h, entities, services))
  }

  /** GetControllerClasses: one class per controller name with a business service, in group order. */
  method GetControllerClasses(h: Helpers, entities: seq<SpiderClass>, services: seq<SpiderClass>) returns (r: Result<seq<ControllerClass>, GenError>)
    ensures r == ControllerClassesOf(h, entities, services)
  {
    var groups := ControllerGroups(entities);
    GroupByPartitions(entities, ControllerName);
    var step := ClassStep(h, entities, services);
    var result: seq<ControllerClass> := [];
    var i := 0;
    while i < |groups|
      invariant 0 <= i <= |groups|
      invariant FlatMapResult(groups[..i], step) == Success(result)
    {
      var g := groups[i];
      assert g.members != [];
      var servicesNamespace := ReplaceAll(g.members[0].namespace, ".Entities", ".Services");
      var matching := Filter(services, (s: SpiderClass) => IsBusinessServiceOf(s, servicesNamespace));
      assert matching == BusinessServicesFor(g, services);
      if |matching| > 1 {
        assert step(g) == Failure(AmbiguousBusinessService(g.key));
        FlatMapResultStopsAt(groups, step, i);
        return Failure(AmbiguousBusinessService(g.key));
      }
      if matching == [] {
        assert step(g) == Success([]);
        FlatMapResultStep(groups, step, i);
        result := result + [];
        i := i + 1;
        continue;
      }
      var service := matching[0];
      var regions := GetControllerMethods(h, g.members, entities);
      if regions.Failure? {
        assert step(g) == Failure(regions.error);
        FlatMapResultStopsAt(groups, step, i);
        return Failure(regions.error);
      }
      var c := ControllerClass(g.key, servicesNamespace, GetBusinessServiceClassName(service.name), service.name, regions.value);
      assert step(g) == Success([c]);
      FlatMapResultStep(groups, step, i);
      result := result + [c];
      i := i + 1;
    }
    assert groups[..i] == groups;
    return Success(result);
  }

  /**
   * Execute: nothing for a project without classes or outside a `.WebAPI` directory;
   * otherwise the controllers of the referenced project's entities and services.
   */
  method Execute(h: Helpers, classCount: nat, callingProjectDirectory: string, referenced: seq<SpiderClass>)
    returns (output: Option<Result<seq<ControllerClass>, GenError>>)
    ensures output.None? <==> classCount < 1 || !Contains(callingProjectDirectory, ".WebAPI")
    ensures output.Some? ==>
      output.value == ControllerClassesOf(h, Filter(referenced, (c: SpiderClass) => EndsWith(c.namespace, ".Entities")),
                                             Filter(referenced, (c: SpiderClass) => EndsWith(c.namespace, ".Services")))
  {
    if classCount < 1 {
      return None;
    }
    if !Contains(callingProjectDirectory, ".WebAPI") {
      return None;
    }
    var entities := Filter(referenced, (c: SpiderClass) => EndsWith(c.namespace, ".Entities"));
    var services := Filter(referenced, (c: SpiderClass) => EndsWith(c.namespace, ".Services"));
    var classes := GetControllerClasses(h, entities, services);
    return Some(classes);
  }

  // ---------------------------------------------------------------------
  // Properties of the generated controllers

  /** The many-to-one endpoints are generated exactly when every property that wants one has a unique related entity. */
  lemma ManyToOneSucceedsIff(h: Helpers, entity: SpiderClass, allEntities: seq<SpiderClass>)
    ensures FlatMapResult(entity.properties, ManyToOneStep(h, entity, allEntities)).Success? <==>
      forall i :: 0 <= i < |entity.properties| ==>
        (h.shouldGenerateAutocompleteControllerMethod(entity.properties[i]) || h.shouldGenerateDropdownControllerMethod(entity.properties[i]))
        ==> |RelationTargets(h, entity.properties[i], allEntities)| == 1
  {
    FlatMapResultSuccess(entity.properties, ManyToOneStep(h, entity, allEntities));
  }

  /** The many-to-many endpoints are generated exactly when every multi-control or lazy-table property has a unique related entity. */
  lemma ManyToManySucceedsIff(h: Helpers, entity: SpiderClass, allEntities: seq<SpiderClass>)
    ensures FlatMapResult(entity.properties, ManyToManyStep(h, entity, allEntities)).Success? <==>
      forall i :: 0 <= i < |entity.properties| ==>
        (|| h.isMultiSelectControlType(entity.properties[i]) || h.isMultiAutocompleteControlType(entity.properties[i])
         || h.hasSimpleManyToManyTableLazyLoadAttribute(entity.properties[i]))
        ==> |RelationTargets(h, entity.properties[i], allEntities)| == 1
  {
    FlatMapResultSuccess(entity.properties, ManyToManyStep(h, entity, allEntities));
  }

  /** The regions of a group: one per non-join entity whose lookups succeed, and a failure if any lookup fails. */
  lemma RegionsExactly(h: Helpers, grouped: seq<SpiderClass>, allEntities: seq<SpiderClass>, region: EntityRegion)
    requires FlatMapResult(grouped, RegionStep(h, allEntities)).Success?
    ensures region in FlatMapResult(grouped, RegionStep(h, allEntities)).value <==>
      exists i :: 0 <= i < |grouped| && !h.isManyToMany(grouped[i])
                  && EntityRegionOf(h, grouped[i], allEntities) == Success(region)
  {
    var step := RegionStep(h, allEntities);
    FlatMapResultMembership(grouped, step, region);
    forall i | 0 <= i < |grouped|
      ensures region in step(grouped[i]).value <==>
        !h.isManyToMany(grouped[i]) && EntityRegionOf(h, grouped[i], allEntities) == Success(region)
    {
      RegionOfEntity(h, grouped[i], allEntities, region);
    }
  }

  /** The regions of one entity: none for a join entity, otherwise its own. */
  lemma RegionOfEntity(h: Helpers, entity: SpiderClass, allEntities: seq<SpiderClass>, region: EntityRegion)
    requires RegionsFor(h, entity, allEntities).Success?
    ensures region in RegionsFor(h, entity, allEntities).value <==>
      !h.isManyToMany(entity) && EntityRegionOf(h, entity, allEntities) == Success(region)
  {
  }

  /** The regions follow the group's entity order, so no region comes before an earlier entity's. */
  lemma RegionsInEntityOrder(h: Helpers, grouped: seq<SpiderClass>, allEntities: seq<SpiderClass>)
    requires FlatMapResult(grouped, RegionStep(h, allEntities)).Success?
    ensures IsSubsequence(Map(FlatMapResult(grouped, RegionStep(h, allEntities)).value, (r: EntityRegion) => r.entityName),
                          Map(grouped, (e: SpiderClass) => e.name))
  {
    FlatMapResultAtMostOne(grouped, RegionStep(h, allEntities), (r: EntityRegion) => r.entityName, (e: SpiderClass) => e.name);
  }

  /** The many-to-one endpoints are guarded and pass the entity's authorize flag. */
  lemma ManyToOneEndpointsAreGuarded(h: Helpers, entity: SpiderClass, allEntities: seq<SpiderClass>, ep: Endpoint)
    requires FlatMapResult(entity.properties, ManyToOneStep(h, entity, allEntities)).Success?
    requires ep in FlatMapResult(entity.properties, ManyToOneStep(h, entity, allEntities)).value
    ensures ep.authGuard && ep.authorize == ShouldAuthorizeEntity(h, entity)
  {
    FlatMapResultMembership(entity.properties, ManyToOneStep(h, entity, allEntities), ep);
    var i :| 0 <= i < |entity.properties| && ep in ManyToOneStep(h, entity, allEntities)(entity.properties[i]).value;
    ManyToOnePartGuarded(h, entity, entity.properties[i], allEntities, ep);
  }

  /** The many-to-one endpoints of one property are guarded and pass the entity's authorize flag. */
  lemma ManyToOnePartGuarded(h: Helpers, entity: SpiderClass, p: Property, allEntities: seq<SpiderClass>, ep: Endpoint)
    requires ManyToOneEndpointsFor(h, entity, p, allEntities).Success?
    requires ep in ManyToOneEndpointsFor(h, entity, p, allEntities).value
    ensures ep.authGuard && ep.authorize == ShouldAuthorizeEntity(h, entity)
  {
    var part := ManyToOneEndpointsFor(h, entity, p, allEntities).value;
    var k :| 0 <= k < |part| && part[k] == ep;
    assert part[k] == AutocompleteEndpoint(h, entity, p) || part[k] == DropdownEndpoint(h, entity, p);
  }

  /** The many-to-many endpoints are guarded. */
  lemma ManyToManyEndpointsAreGuarded(h: Helpers, entity: SpiderClass, allEntities: seq<SpiderClass>, ep: Endpoint)
    requires FlatMapResult(entity.properties, ManyToManyStep(h, entity, allEntities)).Success?
    requires ep in FlatMapResult(entity.properties, ManyToManyStep(h, entity, allEntities)).value
    ensures ep.authGuard
  {
    FlatMapResultMembership(entity.properties, ManyToManyStep(h, entity, allEntities), ep);
    var i :| 0 <= i < |entity.properties| && ep in ManyToManyStep(h, entity, allEntities)(entity.properties[i]).value;
    ManyToManyPartGuarded(h, entity, entity.properties[i], allEntities, ep);
  }

  /** The many-to-many endpoints of one property are guarded. */
  lemma ManyToManyPartGuarded(h: Helpers, entity: SpiderClass, p: Property, allEntities: seq<SpiderClass>, ep: Endpoint)
    requires ManyToManyEndpointsFor(h, entity, p, allEntities).Success?
    requires ep in ManyToManyEndpointsFor(h, entity, p, allEntities).value
    ensures ep.authGuard
  {
    var part := ManyToManyEndpointsFor(h, entity, p, allEntities).value;
    var k :| 0 <= k < |part| && part[k] == ep;
  }

  /** Every endpoint of an entity's region carries `[AuthGuard]`. */
  lemma RegionIsGuarded(h: Helpers, entity: SpiderClass, allEntities: seq<SpiderClass>, ep: Endpoint)
    requires EntityRegionOf(h, entity, allEntities).Success?
    requires ep in EntityRegionOf(h, entity, allEntities).value.Endpoints()
    ensures ep.authGuard
  {
    var r := EntityRegionOf(h, entity, allEntities).value;
    if ep in r.manyToOne {
      ManyToOneEndpointsAreGuarded(h, entity, allEntities, ep);
    } else if ep in r.manyToMany {
      ManyToManyEndpointsAreGuarded(h, entity, allEntities, ep);
    } else if ep in r.ordered {
      var k :| 0 <= k < |r.ordered| && r.ordered[k] == ep;
    } else if ep in r.uploads {
      var k :| 0 <= k < |r.uploads| && r.uploads[k] == ep;
    } else if ep in r.readEndpoints {
      var k :| 0 <= k < |r.readEndpoints| && r.readEndpoints[k] == ep;
    }
  }

  /**
   * The reads, the many-to-one endpoints, save, the uploads and delete pass the entity's
   * authorize flag; the ordered fetches pass `false`.
   */
  lemma RegionAuthorization(h: Helpers, entity: SpiderClass, allEntities: seq<SpiderClass>)
    requires EntityRegionOf(h, entity, allEntities).Success?
    ensures var r := EntityRegionOf(h, entity, allEntities).value;
      && (forall ep :: ep in r.readEndpoints + r.manyToOne + OptionToSeq(r.save) + r.uploads + OptionToSeq(r.delete)
            ==> ep.authorize == ShouldAuthorizeEntity(h, entity))
      && (forall ep :: ep in r.ordered ==> ep.authorize == "false")
  {
    var r := EntityRegionOf(h, entity, allEntities).value;
    forall ep | ep in r.manyToOne ensures ep.authorize == ShouldAuthorizeEntity(h, entity) {
      ManyToOneEndpointsAreGuarded(h, entity, allEntities, ep);
    }
    forall ep | ep in r.uploads ensures ep.authorize == ShouldAuthorizeEntity(h, entity) {
      var k :| 0 <= k < |r.uploads| && r.uploads[k] == ep;
    }
    forall ep | ep in r.ordered ensures ep.authorize == "false" {
      var k :| 0 <= k < |r.ordered| && r.ordered[k] == ep;
    }
    forall ep | ep in r.readEndpoints ensures ep.authorize == ShouldAuthorizeEntity(h, entity) {
      var k :| 0 <= k < |r.readEndpoints| && r.readEndpoints[k] == ep;
    }
  }

  /** Group `g` has exactly one matching service, its regions succeed, and `c` is its class. */
  predicate IsClassOfGroup(h: Helpers, g: Group<string, SpiderClass>, entities: seq<SpiderClass>, services: seq<SpiderClass>, c: ControllerClass) {
    && g.members != []
    && |BusinessServicesFor(g, services)| == 1
    && FlatMapResult(g.members, RegionStep(h, entities)).Success?
    && c == ControllerClassFor(h, g, BusinessServicesFor(g, services)[0], FlatMapResult(g.members, RegionStep(h, entities)).value)
  }

  lemma ClassesForMembership(h: Helpers, g: Group<string, SpiderClass>, entities: seq<SpiderClass>, services: seq<SpiderClass>, c: ControllerClass)
    requires g.members != [] && ClassesFor(h, g, entities, services).Success?
    ensures c in ClassesFor(h, g, entities, services).value <==> IsClassOfGroup(h, g, entities, services, c)
  {
  }

  /**
   * The controller classes: exactly one per controller-name group that has exactly one
   * matching business service, holding that group's regions.
   */
  lemma ControllerClassesExactly(h: Helpers, entities: seq<SpiderClass>, services: seq<SpiderClass>, c: ControllerClass)
    requires ControllerClassesOf(h, entities, services).Success?
    ensures var groups := ControllerGroups(entities);
      c in ControllerClassesOf(h, entities, services).value <==>
        exists i :: 0 <= i < |groups| && IsClassOfGroup(h, groups[i], entities, services, c)
  {
    var groups := ControllerGroups(entities);
    GroupByPartitions(entities, ControllerName);
    var step := ClassStep(h, entities, services);
    FlatMapResultMembership(groups, step, c);
    if exists i :: 0 <= i < |groups| && c in step(groups[i]).value {
      var i :| 0 <= i < |groups| && c in step(groups[i]).value;
      ClassesForMembership(h, groups[i], entities, services, c);
    }
    if exists i :: 0 <= i < |groups| && IsClassOfGroup(h, groups[i], entities, services, c) {
      var i :| 0 <= i < |groups| && IsClassOfGroup(h, groups[i], entities, services, c);
      ClassesForMembership(h, groups[i], entities, services, c);
    }
  }

  /** A successful run fails nowhere: no group has two matching services. */
  lemma NoAmbiguousServiceOnSuccess(h: Helpers, entities: seq<SpiderClass>, services: seq<SpiderClass>, i: nat)
    requires ControllerClassesOf(h, entities, services).Success? && i < |ControllerGroups(entities)|
    ensures ControllerGroups(entities)[i].members != []
    ensures |BusinessServicesFor(ControllerGroups(entities)[i], services)| <= 1
  {
    var groups := ControllerGroups(entities);
    GroupByPartitions(entities, ControllerName);
    FlatMapResultSuccess(groups, ClassStep(h, entities, services));
    assert ClassStep(h, entities, services)(groups[i]).Success?;
  }

  /**
   * When generation succeeds: no controller-name group has two matching business services,
   * and every group with exactly one has regions whose lookups all succeed. A group without
   * a service is skipped and never makes generation fail.
   */
  lemma ControllerClassesSucceedIff(h: Helpers, entities: seq<SpiderClass>, services: seq<SpiderClass>)
    ensures var groups := ControllerGroups(entities);
      ControllerClassesOf(h, entities, services).Success? <==>
        forall i :: 0 <= i < |groups| ==>
          && groups[i].members != []
          && |BusinessServicesFor(groups[i], services)| <= 1
          && (|BusinessServicesFor(groups[i], services)| == 1 ==> FlatMapResult(groups[i].members, RegionStep(h, entities)).Success?)
  {
    var groups := ControllerGroups(entities);
    GroupByPartitions(entities, ControllerName);
    FlatMapResultSuccess(groups, ClassStep(h, entities, services));
    forall i | 0 <= i < |groups|
      ensures ClassStep(h, entities, services)(groups[i]).Success? <==>
        && groups[i].members != []
        && |BusinessServicesFor(groups[i], services)| <= 1
        && (|BusinessServicesFor(groups[i], services)| == 1 ==> FlatMapResult(groups[i].members, RegionStep(h, entities)).Success?)
    {
      assert groups[i].members != [];
    }
  }

  /** The classes follow the order of the groups, and no controller name is emitted twice. */
  lemma ControllerClassesInGroupOrder(h: Helpers, entities: seq<SpiderClass>, services: seq<SpiderClass>)
    requires ControllerClassesOf(h, entities, services).Success?
    ensures var names := Map(ControllerClassesOf(h, entities, services).value, (c: ControllerClass) => c.controllerName);
      && IsSubsequence(names, Map(ControllerGroups(entities), (g: Group<string, SpiderClass>) => g.key))
      && NoDuplicates(names)
  {
    var groups := ControllerGroups(entities);
    var key := (c: ControllerClass) => c.controllerName;
    var tag := (g: Group<string, SpiderClass>) => g.key;
    FlatMapResultAtMostOne(groups, ClassStep(h, entities, services), key, tag);
    GroupByPartitions(entities, ControllerName);
    assert NoDuplicates(Map(groups, tag)) by {
      forall i, j | 0 <= i < j < |groups| ensures Map(groups, tag)[i] != Map(groups, tag)[j] {
        assert Map(groups, tag)[i] == groups[i].key && Map(groups, tag)[j] == groups[j].key;
      }
    }
    SubsequenceNoDuplicates(Map(ControllerClassesOf(h, entities, services).value, key), Map(groups, tag));
  }

  /** Every endpoint of every generated controller carries `[AuthGuard]`. */
  lemma EveryEndpointIsGuarded(h: Helpers, entities: seq<SpiderClass>, services: seq<SpiderClass>,
                               c: ControllerClass, region: EntityRegion, ep: Endpoint)
    requires ControllerClassesOf(h, entities, services).Success?
    requires c in ControllerClassesOf(h, entities, services).value
    requires region in c.regions && ep in region.Endpoints()
    ensures ep.authGuard
  {
    ControllerClassesExactly(h, entities, services, c);
    var groups := ControllerGroups(entities);
    var i :| 0 <= i < |groups| && IsClassOfGroup(h, groups[i], entities, services, c);
    RegionsExactly(h, groups[i].members, entities, region);
    var j :| 0 <= j < |groups[i].members| && !h.isManyToMany(groups[i].members[j])
             && EntityRegionOf(h, groups[i].members[j], entities) == Success(region);
    RegionIsGuarded(h, groups[i].members[j], entities, ep);
  }
}
