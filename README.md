# Spider generators and panel header: a Dafny model

This project models three parts of the Spider framework.

- **The Angular base-details generator** (`NgBaseDetailsGenerator`). It reads the entity and
  DTO classes of a project and writes one Angular details component per entity. The model
  covers:
  - how each property is classified into a UI control kind, and the widget tag, width,
    form-control name and table-column filter that follow from that kind;
  - the filtering and stable ordering of the properties that get a form block;
  - the form blocks, property blocks, show flags and nested ordered one-to-many blocks;
  - the extra permission clauses of the save rule, and the enable/disable statements for
    users who may not save;
  - the member lists (option variables, search methods, upload methods) and the names
    destructured from the `forkJoin` fetch;
  - the import lines and the choice of entities that get a component;
  - the early exit of `Execute`.
- **The Web API controller generator** (`ControllerGenerator`). It writes one controller per
  controller name. The model covers which endpoints each entity gets, their `[AuthGuard]`
  and authorize flag, the skipping of join entities, the business-service lookup, and the
  exceptions the generator throws when a lookup fails.
- **The `panel-header` component** of the Angular library. The model covers its default
  icon, the default title set in `ngOnInit`, the `SpiderTab` constructor, and
  `setTabIsSelected`, which clears every tab's flag in place and then selects one tab.

Helpers whose code is not part of this model are fields of the `Metadata.Helpers` record.
Examples are `IsManyToOneType`, `IsBlob`, `FirstCharToLower` and `IsReadonlyObject`. Every
member that consults a helper takes such a record, so every property proved holds whatever
these helpers compute.

Generated text is modelled as structured values, not strings. A property block is its
`*ngIf` show flag and, for a widget, its control tag and width; an ordered one-to-many
block also holds its target entity and the blocks of its item form. A form block is its
property and optional form-control name. An endpoint is its verb, name,
guard and authorize argument. A toggle statement is its target and verb.

Failures are modelled two ways:
- The UI generator crashes on `SingleOrDefault` over duplicates and on dereferencing a
  missing target. These conditions are preconditions (the `…Defined` predicates).
- The controller generator throws from `Single`/`SingleOrDefault` lookups deep inside its
  loops. These are modelled as `Result` values carrying a `GenError`, and the lemmas say
  exactly when generation succeeds.

Mutable state keeps the source's form:
- `entity.Properties`, which `GetPropertyBlocks` and `GetAngularFormBlocks` grow with
  `AddRange`, is the class `UiBlocks.PropertyList`.
- The panel header and its tabs are classes whose methods update fields in place.
- The template-building `foreach` loops are methods with loop invariants, proved against the
  functions that define their results.

## Model

| member | source | states |
|---|---|---|
| Metadata.ParseControlKind | Spider.SourceGenerators/Angular/NgBaseDetailsGenerator.cs:1235-1239 | A null `UIControlType` value gives the enumeration's default kind; any other kind is returned only when the value is that kind's name. |
| Metadata.ParseControlKindUnknown | Spider.SourceGenerators/Angular/NgBaseDetailsGenerator.cs:1235-1239 | A value that names no kind gives the enumeration's default kind, as a failed `Enum.TryParse` leaves it. |
| Metadata.ParseControlKindName | Spider.SourceGenerators/Angular/NgBaseDetailsGenerator.cs:1235-1239 | Parsing a kind's own name gives that kind back, whatever the default. |
| Metadata.AttributesNamedEmpty | Spider.SourceGenerators/Angular/NgBaseDetailsGenerator.cs:1211 | The `Where(Name == n)` selection is empty exactly when no attribute has that name. |
| UiClassifier.PrimitiveControlKind | Spider.SourceGenerators/Angular/NgBaseDetailsGenerator.cs:1250-1275 | The type switch yields a kind exactly for `string`, the bool, date, fractional and integral types (nullable or not). |
| UiClassifier.ExplicitControlType | Spider.SourceGenerators/Angular/NgBaseDetailsGenerator.cs:1233 | An explicit attribute is found exactly when the property has a `UIControlType` attribute. |
| UiClassifier.GetUIControlType | Spider.SourceGenerators/Angular/NgBaseDetailsGenerator.cs:1231-1278 | With an explicit attribute, the kind is its parsed value (the default when unparsable). Otherwise the rules apply in order: blob gives File, many-to-one gives Autocomplete, lazy-load table gives Table, then the type switch, else TODO. |
| UiClassifier.ExplicitControlTypeIsIndependent | Spider.SourceGenerators/Angular/NgBaseDetailsGenerator.cs:1235-1239 | Two properties with the same `UIControlType` attributes get the same kind, whatever their types. |
| UiClassifier.TodoWhenNoRuleApplies | Spider.SourceGenerators/Angular/NgBaseDetailsGenerator.cs:1241-1277 | Without an explicit attribute, the kind is TODO exactly when no inference rule applies. |
| UiClassifier.GetUIStringControlType | Spider.SourceGenerators/Angular/NgBaseDetailsGenerator.cs:1281-1322 | The tag is a `spider-` widget exactly when the kind is not TODO. |
| UiClassifier.WidgetTagsDistinguishKinds | Spider.SourceGenerators/Angular/NgBaseDetailsGenerator.cs:1281-1322 | Two kinds share a tag only when they are equal or are Integer and Decimal (both `spider-number`). |
| UiClassifier.GetUIControlWidth | Spider.SourceGenerators/Angular/NgBaseDetailsGenerator.cs:1209-1229 | An explicit `UIControlWidth` value is used verbatim. Otherwise the width is `col-12` exactly for the full-row kinds and `col-12 md:col-6` for all others. |
| UiClassifier.InferredWidthIsFullRowOnlyForFileOrTable | Spider.SourceGenerators/Angular/NgBaseDetailsGenerator.cs:1209-1229 | Without explicit attributes, a property takes a full row exactly when it is a blob, or a non-many-to-one lazy-load table. |
| UiClassifier.GetFormControlName | Spider.SourceGenerators/Angular/NgBaseDetailsGenerator.cs:1150-1156 | The name starts with the camel-cased property name; it is two characters longer and ends in `Id` exactly for many-to-one properties. |
| UiClassifier.GetTableColFilterType | Spider.SourceGenerators/Angular/NgBaseDetailsGenerator.cs:471-510 | A column filters by multiselect, text, date, numeric or boolean exactly under each type's condition, and has no filter otherwise. |
| UiClassifier.GetTableColAdditionalProperties | Spider.SourceGenerators/Angular/NgBaseDetailsGenerator.cs:438-469 | Dropdown columns get the `{name}Id` filter and the list method. Comma-separated columns get the list method. Match modes are shown exactly for the remaining columns with such a filter. |
| UiClassifier.MatchModesFollowFilterKind | Spider.SourceGenerators/Angular/NgBaseDetailsGenerator.cs:438-510 | Date and numeric filters show match modes. Match modes on a non-many-to-one column imply a date or numeric filter. A dropdown filter is never shown with match modes. |
| UiOrdering.BlockKey | Spider.SourceGenerators/Angular/NgBaseDetailsGenerator.cs:1138-1144 | The sort key lies between 0 and 5. |
| UiOrdering.BlockKeyBuckets | Spider.SourceGenerators/Angular/NgBaseDetailsGenerator.cs:1138-1144 | The key is 0 exactly for a `BlobName` property; otherwise 2 exactly for a `TextArea` value, then 3 exactly for an `Editor` value; 4 only for `UIOrderedOneToMany`, 5 only for `SimpleManyToManyTableLazyLoad`, and 1 only when neither of those two is present. |
| UiOrdering.GetPropertiesForUIBlocks | Spider.SourceGenerators/Angular/NgBaseDetailsGenerator.cs:1121-1148 | A property is in the result exactly when it is in the input and passes the `Where` filter. |
| UiOrdering.StableBucketSort | Spider.SourceGenerators/Angular/NgBaseDetailsGenerator.cs:1138-1145 | `OrderBy` on the key is a permutation, sorted by key, and keeps the input order within each key. |
| UiOrdering.SortIsUnique | Spider.SourceGenerators/Angular/NgBaseDetailsGenerator.cs:1138-1145 | Any sequence sorted by key whose per-key subsequences equal the input's is that result. |
| UiOrdering.UIBlocksContents | Spider.SourceGenerators/Angular/NgBaseDetailsGenerator.cs:1121-1148 | The result holds exactly the filtered properties with their multiplicities, sorted by key, with each key's properties in input order. |
| UiOrdering.SortKeepsCounts | Spider.SourceGenerators/Angular/NgBaseDetailsGenerator.cs:1138-1145 | Sorting does not change how many properties satisfy any predicate. |
| UiOrdering.UIBlocksCount | Spider.SourceGenerators/Angular/NgBaseDetailsGenerator.cs:1121-1148 | Counting over the UI-block list equals counting the filter together with the predicate over the input. |
| UiBlocks.PropertyList.constructor | Spider.SourceGenerators/Angular/NgBaseDetailsGenerator.cs:1017-1030 | A property list holds the given properties. |
| UiBlocks.FormBlockFor | Spider.SourceGenerators/Angular/NgBaseDetailsGenerator.cs:1067-1105 | A form block is about its own property. |
| UiBlocks.FormControlNaming | Spider.SourceGenerators/Angular/NgBaseDetailsGenerator.cs:1067-1105 | A block has no control name exactly for ordered one-to-many and non-multi tables. Multi controls are named `selected{Name}For{Entity}`; every other control takes GetFormControlName. |
| UiBlocks.FormBlocksOfIndex | Spider.SourceGenerators/Angular/NgBaseDetailsGenerator.cs:1067-1105 | Form block `i` is the block of property `i`. |
| UiBlocks.GetAngularFormBlocks | Spider.SourceGenerators/Angular/NgBaseDetailsGenerator.cs:1053-1108 | The list grows by the custom DTO's properties, and the blocks are those of the grown list's UI-block order. |
| UiBlocks.BuildFormBlocks | Spider.SourceGenerators/Angular/NgBaseDetailsGenerator.cs:1067-1105 | The loop yields the form block of each ordered property, in order. |
| UiBlocks.FormBlocksFollowUIBlocks | Spider.SourceGenerators/Angular/NgBaseDetailsGenerator.cs:1053-1108 | There is one form block per UI-block property, in the same order. |
| UiBlocks.GetNgIfForPropertyBlock | Spider.SourceGenerators/Angular/NgBaseDetailsGenerator.cs:1324-1332 | Blocks inside an ordered list have no `*ngIf`; others test `show{Name}For{Entity}`. |
| UiBlocks.ShowFlagsOf | Spider.SourceGenerators/Angular/NgBaseDetailsGenerator.cs:308-313 | One show flag per form block, named after the block's property, in block order. |
| UiBlocks.GetShowFormBlocksVariables | Spider.SourceGenerators/Angular/NgBaseDetailsGenerator.cs:302-316 | The list grows by the custom DTO's properties, and the flags are those of the blocks over the grown list. |
| UiBlocks.ShowFlagsOfBlocks | Spider.SourceGenerators/Angular/NgBaseDetailsGenerator.cs:308-313 | The loop yields the show flag of each block, in order. |
| UiBlocks.ItemBlocksOfIndex | Spider.SourceGenerators/Angular/NgBaseDetailsGenerator.cs:821-862 | Item `i` of an ordered block is about item property `i`. It is a nested ordered block exactly when that property is ordered; otherwise it is a control block without `*ngIf`. |
| UiBlocks.OrderedBlockFor | Spider.SourceGenerators/Angular/NgBaseDetailsGenerator.cs:821-862 | An ordered block tests its property's show flag, its target is the unique entity named by the property's generic type, and none of its control items has an `*ngIf`. Its items are one per UI-block property of the target's item properties followed by the target's custom DTO properties, in that order, each that property's item block. |
| UiBlocks.OrderedBlockTarget | Spider.SourceGenerators/Angular/NgBaseDetailsGenerator.cs:823 | A unique target is in the entities and has the extracted type name. |
| UiBlocks.PropertyBlockFor | Spider.SourceGenerators/Angular/NgBaseDetailsGenerator.cs:1032-1048 | Ordered properties give ordered blocks that test the property's show flag. Others give a control block with the property's tag, width and show flag. |
| UiBlocks.PropertyBlocksOfIndex | Spider.SourceGenerators/Angular/NgBaseDetailsGenerator.cs:1032-1048 | Property block `i` is the block of property `i`. |
| UiBlocks.GetPropertyBlocks | Spider.SourceGenerators/Angular/NgBaseDetailsGenerator.cs:1017-1051 | The list grows by the custom DTO's properties, and the blocks are those of the grown list's UI-block order. |
| UiBlocks.BuildPropertyBlocks | Spider.SourceGenerators/Angular/NgBaseDetailsGenerator.cs:1032-1048 | The loop yields the block of each ordered property, in order. |
| UiBlocks.BuildPropertyBlock | Spider.SourceGenerators/Angular/NgBaseDetailsGenerator.cs:1034-1047 | One iteration yields an ordered list's block for a `UIOrderedOneToMany` property, otherwise the widget under its show flag. |
| UiBlocks.PropertyBlocksFollowUIBlocks | Spider.SourceGenerators/Angular/NgBaseDetailsGenerator.cs:1032-1048 | There is one block per ordered property. Every block, control or ordered, tests its property's show flag; control blocks use the property's width and widget tag; ordered blocks' control items are unconditional. |
| UiBlocks.ShowFlagsCoverPropertyBlocks | Spider.SourceGenerators/Angular/NgBaseDetailsGenerator.cs:1017-1051 | If every rendered property is also declared, every rendered top-level block has an `*ngIf` on its property's show flag, and that flag is declared. |
| UiAuthorization.PermissionClauseFor | Spider.SourceGenerators/Angular/NgBaseDetailsGenerator.cs:322-336 | Only the Insert and Update permission-code attributes give a clause. The clause's code is the attribute's value, and its mode is insert exactly for the Insert attribute. |
| UiAuthorization.GetAdditionalPermissionCodes | Spider.SourceGenerators/Angular/NgBaseDetailsGenerator.cs:318-339 | The loop yields the clause of each permission-code attribute, in order. |
| UiAuthorization.ClausesGrantIffAttributeGrants | Spider.SourceGenerators/Angular/NgBaseDetailsGenerator.cs:318-339 | Some clause grants exactly when some attribute names a held code for the current mode (insert when `modelId <= 0`, update when `> 0`). |
| UiAuthorization.AuthorizationRule | Spider.SourceGenerators/Angular/NgBaseDetailsGenerator.cs:241-249 | Saving is allowed exactly when the server says so, the entity's own Insert/Update code applies, or a permission-code attribute grants. |
| UiAuthorization.NoPermissionAttributes | Spider.SourceGenerators/Angular/NgBaseDetailsGenerator.cs:318-339 | Without permission-code attributes there are no extra clauses. |
| UiAuthorization.AdditionalClausesOnlyWiden | Spider.SourceGenerators/Angular/NgBaseDetailsGenerator.cs:241-249 | Extra clauses never take away a permission the base rule grants. |
| UiAuthorization.ClauseModeExclusive | Spider.SourceGenerators/Angular/NgBaseDetailsGenerator.cs:322-336 | A clause grants either only for new objects or only for existing ones. |
| UiAuthorization.VerbFor | Spider.SourceGenerators/Angular/NgBaseDetailsGenerator.cs:354 | The verb is `disable` exactly when disabling. |
| UiAuthorization.ToggleLineFor | Spider.SourceGenerators/Angular/NgBaseDetailsGenerator.cs:347-370 | A statement, when produced, carries the given verb. There is none exactly when the block has no control name and is not an ordered one-to-many collection. A form-array statement comes only from such a collection and switches `camel(Name)+"FormArray"`; every other statement switches the block's control name, inside `camel(Entity)+"FormGroup"` unless it is a multi control. |
| UiAuthorization.GetControlsForNonAuthorizedUser | Spider.SourceGenerators/Angular/NgBaseDetailsGenerator.cs:341-375 | The list grows by the custom DTO's properties, and the statements are those of the form blocks over the grown list. |
| UiAuthorization.BuildToggleLines | Spider.SourceGenerators/Angular/NgBaseDetailsGenerator.cs:347-372 | The loop yields the statement of each block that has one, in order. |
| UiAuthorization.ToggleVerbSwap | Spider.SourceGenerators/Angular/NgBaseDetailsGenerator.cs:347-372 | Over the same blocks, the two verbs give equally many statements, equal except for the verb. |
| UiAuthorization.ToggleLinesVerb | Spider.SourceGenerators/Angular/NgBaseDetailsGenerator.cs:347-372 | Every statement carries the requested verb. |
| UiAuthorization.ToggleForBlock | Spider.SourceGenerators/Angular/NgBaseDetailsGenerator.cs:349-370 | A property's block yields a statement exactly when the property has a control to switch. |
| UiAuthorization.ToggleLinesCount | Spider.SourceGenerators/Angular/NgBaseDetailsGenerator.cs:347-372 | There are as many statements as properties with a control to switch. |
| UiAuthorization.ToggleLinesCountOverProperties | Spider.SourceGenerators/Angular/NgBaseDetailsGenerator.cs:341-375 | Over a property list, the count is that of kept properties with a control to switch. |
| UiMembers.CollectMembers | Spider.SourceGenerators/Angular/NgBaseDetailsGenerator.cs:879-996 | The shared `foreach` yields exactly each emitting property's member, in property order (the recursive call's result is discarded). |
| UiMembers.GetPrimengOptionVariables | Spider.SourceGenerators/Angular/NgBaseDetailsGenerator.cs:879-915 | The option variables of the list's emitting properties, in order. |
| UiMembers.GetAutocompleteSearchMethods | Spider.SourceGenerators/Angular/NgBaseDetailsGenerator.cs:917-956 | The search methods of the list's emitting properties, in order. |
| UiMembers.GetUploadImageMethods | Spider.SourceGenerators/Angular/NgBaseDetailsGenerator.cs:958-996 | The upload methods of the list's emitting properties, in order. |
| UiMembers.MembersOfConcat | Spider.SourceGenerators/Angular/NgBaseDetailsGenerator.cs:879-996 | The members of two concatenated lists are the two lists' members, concatenated. |
| UiMembers.NonEmittingContributesNothing | Spider.SourceGenerators/Angular/NgBaseDetailsGenerator.cs:883-908 | Removing a non-emitting property does not change the members. |
| UiMembers.DiscardedRecursionContributesNothing | Spider.SourceGenerators/Angular/NgBaseDetailsGenerator.cs:893-897 | A property the loop recurses into contributes nothing, because the recursive call's result is discarded. |
| UiMembers.MembersAreEmittingProperties | Spider.SourceGenerators/Angular/NgBaseDetailsGenerator.cs:879-996 | The members are the names of the filtered emitting properties. |
| UiMembers.MembersOfExactly | Spider.SourceGenerators/Angular/NgBaseDetailsGenerator.cs:879-996 | A name is a member exactly when some emitting property of the list has it. |
| UiMembers.MemberHasProperty | Spider.SourceGenerators/Angular/NgBaseDetailsGenerator.cs:879-996 | Every member names an emitting property of the list. |
| UiMembers.PropertyHasMember | Spider.SourceGenerators/Angular/NgBaseDetailsGenerator.cs:879-996 | Every emitting property of the list has its member. |
| UiMembers.MembersOfCount | Spider.SourceGenerators/Angular/NgBaseDetailsGenerator.cs:879-996 | There is one member per emitting property. |
| UiMembers.SearchMethodsHaveOptions | Spider.SourceGenerators/Angular/NgBaseDetailsGenerator.cs:917-956 | Every property with a search method also has its options variable declared. |
| UiMembers.GetForkJoinParameterNames | Spider.SourceGenerators/Angular/NgBaseDetailsGenerator.cs:998-1015 | The entity's own name, then one name per ordered one-to-many or multi-control property, in order. |
| UiMembers.ForkJoinNamesAreFetchedProperties | Spider.SourceGenerators/Angular/NgBaseDetailsGenerator.cs:998-1015 | The fetched names are the names of the filtered fetched properties. |
| UiMembers.ForkJoinNamesShape | Spider.SourceGenerators/Angular/NgBaseDetailsGenerator.cs:998-1015 | The list starts with the entity's name and has one more name per fetched property. |
| UiMembers.ForkJoinNamesMatchKeys | Spider.SourceGenerators/Angular/NgBaseDetailsGenerator.cs:632-647 | Every destructured name is a key of the `forkJoin` object, and every key is destructured. |
| UiMembers.DestructuredNameIsKey | Spider.SourceGenerators/Angular/NgBaseDetailsGenerator.cs:735-747 | Each destructured name is an entity, ordered-list or multi-control key. |
| UiMembers.KeyIsDestructured | Spider.SourceGenerators/Angular/NgBaseDetailsGenerator.cs:735-747 | Each key of the fetched object is destructured. |
| UiImports.ImportsOf | Spider.SourceGenerators/Angular/NgBaseDetailsGenerator.cs:1334-1360 | The imports are the DTOs (under their entity's name and namespace), then the entities, then their save bodies, position by position. |
| UiImports.GetDynamicNgImports | Spider.SourceGenerators/Angular/NgBaseDetailsGenerator.cs:1384-1402 | One line per namespace group, in order of first appearance, skipping Shared and Security. |
| UiImports.ImportLinesExactly | Spider.SourceGenerators/Angular/NgBaseDetailsGenerator.cs:1384-1402 | A line is produced exactly when it is the line of a non-skipped group. |
| UiImports.ImportLineHasGroup | Spider.SourceGenerators/Angular/NgBaseDetailsGenerator.cs:1384-1402 | Every line comes from a non-skipped group. |
| UiImports.GroupHasImportLine | Spider.SourceGenerators/Angular/NgBaseDetailsGenerator.cs:1384-1402 | Every non-skipped group has its line. |
| UiImports.NoSkippedProjectOrRepeatedName | Spider.SourceGenerators/Angular/NgBaseDetailsGenerator.cs:1384-1402 | No line imports from Shared or Security, and no line names a class twice. |
| UiImports.EveryImportIsCovered | Spider.SourceGenerators/Angular/NgBaseDetailsGenerator.cs:1384-1402 | Every import outside Shared and Security is named on its own project's line. |
| UiComponent.SelectGeneratorInputs | Spider.SourceGenerators/Angular/NgBaseDetailsGenerator.cs:55-64 | Nothing is generated exactly when the project has at most one class. |
| UiComponent.GeneratorInputsExactly | Spider.SourceGenerators/Angular/NgBaseDetailsGenerator.cs:61-64 | The DTOs are the current project's `.DTO` classes; the entities are the `.Entities` classes of either project. |
| UiComponent.ComponentEntitiesExactly | Spider.SourceGenerators/Angular/NgBaseDetailsGenerator.cs:87-93 | An entity gets a component exactly when it passes the filter, and the order is kept. |
| UiComponent.RepeatedMembership | Spider.SourceGenerators/Angular/NgBaseDetailsGenerator.cs:1027-1030 | However often the DTO's properties were appended, the list holds the same properties. |
| UiComponent.ViewIsDefined | Spider.SourceGenerators/Angular/NgBaseDetailsGenerator.cs:1027-1030 | If the lookups succeed after one append, they succeed after more. |
| UiComponent.GenerateComponentAsWritten | Spider.SourceGenerators/Angular/NgBaseDetailsGenerator.cs:107-275 | As written, the blocks see the DTO's properties once, the show flags twice, the enabling lines three times, and the disabling lines four times. |
| UiComponent.GenerateComponent | Spider.SourceGenerators/Angular/NgBaseDetailsGenerator.cs:107-275 | Corrected: every part sees the entity's properties followed by its custom DTO's once. |
| UiComponent.AsWrittenToggleCountGap | Spider.SourceGenerators/Angular/NgBaseDetailsGenerator.cs:252-255 | As written, there are more disabling than enabling statements, by the number of kept DTO properties with a control to switch. |
| UiComponent.AsWrittenShowFlagsCountGap | Spider.SourceGenerators/Angular/NgBaseDetailsGenerator.cs:107-172 | As written, there are more show flags than blocks, by the number of kept DTO properties. |
| UiComponent.CorrectedToggleSymmetry | Spider.SourceGenerators/Angular/NgBaseDetailsGenerator.cs:252-255 | In the corrected component, the enabling and disabling statements differ only in their verb. |
| UiComponent.CorrectedShowFlagsMatchBlocks | Spider.SourceGenerators/Angular/NgBaseDetailsGenerator.cs:107-172 | In the corrected component, the show flags are exactly the blocks' flags, one per block, in order. |
| UiComponent.SingleDtoPropertyDuplicates | Spider.SourceGenerators/Angular/NgBaseDetailsGenerator.cs:107-255 | Take an entity without properties whose DTO has one switchable property. As written, it has one block, the same show flag twice, and one more disabling than enabling statement. |
| UiComponent.AsWrittenDuplicatesCustomDtoMembers | Spider.SourceGenerators/Angular/NgBaseDetailsGenerator.cs:107-255 | The concrete case `Person`/`PersonDTO` with one string property shows the duplication. |
| UiComponent.ComponentsOf | Spider.SourceGenerators/Angular/NgBaseDetailsGenerator.cs:95-297 | There is one component per selected entity, the corrected component (see Findings). |
| UiComponent.GetAngularBaseDetailsComponents | Spider.SourceGenerators/Angular/NgBaseDetailsGenerator.cs:83-300 | The loop yields the (corrected) component of each selected entity, in order. |
| UiComponent.AppendComponent | Spider.SourceGenerators/Angular/NgBaseDetailsGenerator.cs:95-297 | One iteration appends the next entity's (corrected) component. |
| UiComponent.ComponentsOfIndex | Spider.SourceGenerators/Angular/NgBaseDetailsGenerator.cs:83-300 | Component `i` is the corrected component of selected entity `i`. |
| UiComponent.Execute | Spider.SourceGenerators/Angular/NgBaseDetailsGenerator.cs:55-81 | Nothing is generated exactly when the project has at most one class. Otherwise the file holds the import lines of the DTOs and entities, and the (corrected) components. |
| Controllers.ShouldAuthorizeEntity | Spider.SourceGenerators/Net/ControllerGenerator.cs:442-445 | The flag is `"false"` exactly for entities marked `DoNotAuthorize`; otherwise `"true"`. |
| Controllers.GetBusinessServiceClassName | Spider.SourceGenerators/Net/ControllerGenerator.cs:447-453 | The service name is kept unless it contains `Security`, in which case it gets `<UserExtended>`. |
| Controllers.RelationTarget | Spider.SourceGenerators/Net/ControllerGenerator.cs:242-354 | The lookup succeeds exactly when one entity has the property's type name. Otherwise it fails as missing or as ambiguous. |
| Controllers.ReadEndpoints | Spider.SourceGenerators/Net/ControllerGenerator.cs:151-183 | Four read endpoints, each passing the entity's authorize flag. |
| Controllers.ManyToOneEndpointsFor | Spider.SourceGenerators/Net/ControllerGenerator.cs:220-237 | The autocomplete endpoint comes before the dropdown endpoint, each only when wanted. They succeed exactly when nothing is wanted or the related entity is unique. |
| Controllers.AppendManyToOneMethods | Spider.SourceGenerators/Net/ControllerGenerator.cs:220-237 | One iteration yields that property's many-to-one endpoints or the error. |
| Controllers.GetManyToOneReadMethods | Spider.SourceGenerators/Net/ControllerGenerator.cs:216-240 | The endpoints of each property, in order, failing at the first failing lookup. |
| Controllers.ManyToManyEndpointsFor | Spider.SourceGenerators/Net/ControllerGenerator.cs:292-303 | Multi controls get the namebook endpoint. Otherwise lazy-load tables get the table endpoints. Others get none. Each needs a unique related entity. |
| Controllers.AppendManyToManyMethods | Spider.SourceGenerators/Net/ControllerGenerator.cs:292-303 | One iteration yields that property's many-to-many endpoints or the error. |
| Controllers.GetManyToManyControllerMethods | Spider.SourceGenerators/Net/ControllerGenerator.cs:288-306 | The endpoints of each property, in order, failing at the first failing lookup. |
| Controllers.GetOrderedOneToManyControllerMethods | Spider.SourceGenerators/Net/ControllerGenerator.cs:356-375 | One ordered-fetch endpoint per ordered one-to-many property, in order. |
| Controllers.GetUploadBlobControllerMethods | Spider.SourceGenerators/Net/ControllerGenerator.cs:415-436 | One upload endpoint per blob property, in order. |
| Controllers.GetSaveControllerMethods | Spider.SourceGenerators/Net/ControllerGenerator.cs:400-413 | No save endpoint exactly for read-only entities; otherwise `PUT Save{Entity}`. |
| Controllers.GetDeleteControllerMethods | Spider.SourceGenerators/Net/ControllerGenerator.cs:381-394 | No delete endpoint exactly for read-only entities; otherwise `DELETE Delete{Entity}`. |
| Controllers.EntityRegionOf | Spider.SourceGenerators/Net/ControllerGenerator.cs:149-207 | An entity's region exists exactly when all its lookups succeed. It holds the four reads, and holds save and delete exactly when the entity is not read-only. |
| Controllers.GetControllerMethods | Spider.SourceGenerators/Net/ControllerGenerator.cs:140-212 | The regions of the group's non-join entities, in order, failing at the first failing lookup. |
| Controllers.ClassesFor | Spider.SourceGenerators/Net/ControllerGenerator.cs:101-135 | A group without a business service is skipped: it gives no controller and no failure. A group with one service gives its controller exactly when its regions succeed. More than one service fails as ambiguous. |
| Controllers.GetControllerClasses | Spider.SourceGenerators/Net/ControllerGenerator.cs:97-138 | The controllers of the groups, in group order, failing at the first error; serviceless groups are skipped (ClassesFor) and success is characterised by ControllerClassesSucceedIff. |
| Controllers.Execute | Spider.SourceGenerators/Net/ControllerGenerator.cs:55-95 | Nothing is generated exactly without classes or outside a `.WebAPI` directory. Otherwise the controllers of the referenced entities and services are generated. |
| Controllers.ManyToOneSucceedsIff | Spider.SourceGenerators/Net/ControllerGenerator.cs:216-266 | Many-to-one generation succeeds exactly when every property that wants an endpoint has a unique related entity. |
| Controllers.ManyToManySucceedsIff | Spider.SourceGenerators/Net/ControllerGenerator.cs:288-340 | Many-to-many generation succeeds exactly when every multi-control or lazy-table property has a unique related entity. |
| Controllers.RegionsExactly | Spider.SourceGenerators/Net/ControllerGenerator.cs:140-212 | A region is produced exactly when it is the region of a non-join entity of the group. |
| Controllers.RegionsInEntityOrder | Spider.SourceGenerators/Net/ControllerGenerator.cs:140-212 | The regions follow the group's entity order. |
| Controllers.ManyToOneEndpointsAreGuarded | Spider.SourceGenerators/Net/ControllerGenerator.cs:216-286 | Every many-to-one endpoint is guarded and passes the entity's authorize flag. |
| Controllers.ManyToManyEndpointsAreGuarded | Spider.SourceGenerators/Net/ControllerGenerator.cs:288-354 | Every many-to-many endpoint is guarded. |
| Controllers.RegionIsGuarded | Spider.SourceGenerators/Net/ControllerGenerator.cs:149-207 | Every endpoint of an entity's region is guarded. |
| Controllers.RegionAuthorization | Spider.SourceGenerators/Net/ControllerGenerator.cs:149-436 | Reads, many-to-one and uploads pass the entity's authorize flag; ordered fetches pass `false`. |
| Controllers.ClassesForMembership | Spider.SourceGenerators/Net/ControllerGenerator.cs:101-135 | A controller comes from a group exactly when it is that group's class for its unique service. |
| Controllers.ControllerClassesExactly | Spider.SourceGenerators/Net/ControllerGenerator.cs:97-138 | A controller is generated exactly when some group has it as its class. |
| Controllers.ControllerClassesSucceedIff | Spider.SourceGenerators/Net/ControllerGenerator.cs:101-135 | Generation succeeds exactly when no group has two business services and every group with one has all its relation lookups succeed; serviceless groups never make it fail. |
| Controllers.NoAmbiguousServiceOnSuccess | Spider.SourceGenerators/Net/ControllerGenerator.cs:103-113 | When generation succeeds, no group has two business services. |
| Controllers.ControllerClassesInGroupOrder | Spider.SourceGenerators/Net/ControllerGenerator.cs:97-138 | Controllers follow group order, and no controller name appears twice. |
| Controllers.EveryEndpointIsGuarded | Spider.SourceGenerators/Net/ControllerGenerator.cs:97-212 | Every endpoint of every generated controller carries `[AuthGuard]`. |
| PanelHeader.SpiderTab.constructor | Angular/projects/spider/src/lib/components/spider-panels/panel-header/panel-header.component.ts:45-62 | Each given field is copied. |
| PanelHeader.SpiderTab.Empty | Angular/projects/spider/src/lib/components/spider-panels/panel-header/panel-header.component.ts:45-62 | A tab made without options has every field unset. |
| PanelHeader.Selected | Angular/projects/spider/src/lib/components/spider-panels/panel-header/panel-header.component.ts:29-35 | Selection keeps the number of tabs. |
| PanelHeader.SelectedIndex | Angular/projects/spider/src/lib/components/spider-panels/panel-header/panel-header.component.ts:29-35 | After a selection, each tab's flag says whether it was chosen; its label, id and icon are kept. |
| PanelHeader.SelectedIdempotent | Angular/projects/spider/src/lib/components/spider-panels/panel-header/panel-header.component.ts:29-35 | Selecting the same tab twice gives the state of selecting it once. |
| PanelHeader.SelectedForgetsHistory | Angular/projects/spider/src/lib/components/spider-panels/panel-header/panel-header.component.ts:29-35 | The state after a selection does not depend on which tabs were selected before. |
| PanelHeader.SelectionOfTab | Angular/projects/spider/src/lib/components/spider-panels/panel-header/panel-header.component.ts:29-35 | Exactly the positions holding the chosen tab end selected; if it is not in the list, none does. |
| PanelHeader.PanelHeaderComponent.constructor | Angular/projects/spider/src/lib/components/spider-panels/panel-header/panel-header.component.ts:13-22 | A new header has the `pi pi-file-edit` icon and every other input unset. |
| PanelHeader.PanelHeaderComponent.NgOnInit | Angular/projects/spider/src/lib/components/spider-panels/panel-header/panel-header.component.ts:24-27 | A missing title becomes the translated "Details"; a given title is kept; nothing else changes. |
| PanelHeader.PanelHeaderComponent.SetTabIsSelected | Angular/projects/spider/src/lib/components/spider-panels/panel-header/panel-header.component.ts:29-35 | The tab list is unchanged. Each listed tab ends selected exactly when it is the chosen tab, and the chosen tab ends selected even when not listed. No label, id or icon changes. |
| PanelHeader.PanelHeaderComponent.ClearSelection | Angular/projects/spider/src/lib/components/spider-panels/panel-header/panel-header.component.ts:30-32 | The `forEach` leaves every listed tab unselected and changes nothing else. |

## Left out

- The Roslyn pipeline is not modelled: `Initialize`, syntax-tree filtering, reading classes from syntax, `context.AddSource`, and writing files to output paths. Execute takes the class lists and the class count as parameters.
- Template text is not modelled: markup, TypeScript and C# bodies, attribute strings of controls, endpoint bodies and the service calls they make. The model keeps the structure that decides which pieces appear, in which order, with which names and flags.
- The helpers whose code is not part of this model are uninterpreted `Helpers` fields: `IsManyToOneType`, `IsBlob`, `FirstCharToLower`, `ExtractTypeFromGenericType`, `IsReadonlyObject`, `GetOrderedOneToManyProperties` and the others. So are the two controller-side "should generate" predicates.
- SpiderClass.cs and the helper and extension files are not part of this model. `SpiderClass.Properties` is taken to return the same mutable list on every read. The duplication finding rests on this.
- The other UI generator functions that only format text are left out: the many-to-many save-body assignments, form-control initialisations, lazy-load table columns, ordered list "add new item" and "init form array" methods, `GetSpiderFormControls` and `GetCustomOnChangeProperties`, and `GetControlAttributes`.
- Each component is modelled from the entity's list as given. The source's growth of `entity.Properties` leaks into the next component that uses the same entity object (for example a nested ordered target). That is not modelled.
- UiBlocks.OrderedBlockFor: an ordered block's items model one level of nesting. An ordered property inside an ordered list gives a nested marker block, not its full recursive block.
- UiMembers.CollectMembers: the recursive call into an ordered one-to-many target is modelled as contributing nothing, as in the source. The target lookup before that call is a precondition; crashes inside the call, among the target's own properties, are not modelled.
- Metadata.ParseControlKind: only exact member names parse. `Enum.TryParse` also accepts numeric strings and comma-separated flag names; those give the default here.
- The unparsable-`UIControlType` case follows the code: `Enum.TryParse` leaves `default(UIControlTypeCodes)`, the parameter `h.defaultControlKind`.
- UiComponent.ComponentsOf: builds each component with the corrected `GenerateComponent` (every part sees the entity's and the DTO's properties once). The source's template sees the DTO's properties up to four times; that behaviour is `GenerateComponentAsWritten`, and the Findings table relates the two.
- UiComponent.ComponentsOfIndex: states component `i` as the corrected component (views 1, 1, 1, 1), not the as-written one (views 1, 2, 3, 4) the source emits.
- UiComponent.AppendComponent: appends the corrected component, where the source appends the as-written one.
- UiComponent.GetAngularBaseDetailsComponents: the loop yields the corrected components. On an entity with a custom DTO (for example `Person` and `PersonDTO`) its output differs from the source's: the source repeats the DTO's show flags and toggle statements.
- UiComponent.Execute: the file holds the corrected components, so it inherits the difference above; the import lines and the early exit are as in the source. The read of `currentProjectClasses[0].Namespace`, which only feeds the project name and the output path, is left out, so the model does not fail when no current-project class is given.
- Controllers.Execute: the null-namespace and `BaseType` guards, `usings`, the app name, `currentProjectClasses[0]` and the output text are left out. The result is the list of controller classes.
- Controllers.RelationTarget: the C# exceptions are modelled as `GenError` values (missing or ambiguous target, ambiguous business service), not as exception types or messages.
- PanelHeader.PanelHeaderComponent.constructor: the source leaves `tabs` unbound until an input binds it; the model starts with no tabs. Angular's input binding, change detection and template are not modelled.
- PanelHeader.PanelHeaderComponent.NgOnInit: the Transloco `translate('Details')` call is the parameter `translatedDetails`.
- PanelHeader.SpiderTab: the `label` field is named `tabLabel`, because `label` is a reserved word in Dafny.
- The other Angular library components (login, verification wrapper, buttons, multiselect) and RxJS at run time are not part of this model.

## Findings

| source | as written | input that shows it | evidently intended | confidence | as-written member | corrected member |
|---|---|---|---|---|---|---|
| Spider.SourceGenerators/Angular/NgBaseDetailsGenerator.cs:1027-1030, 1062-1065, 107, 172, 252, 255 | `GetPropertyBlocks` and `GetAngularFormBlocks` append the custom DTO's properties to `entity.Properties` itself. In each component, the property blocks, the show flags, the enabling statements and the disabling statements therefore see the DTO's properties once, twice, three and four times. | Entity `Person` without properties, and `PersonDTO` with one `string` property. The component renders one block but declares `show…For…` twice, and disables one more control than it enables. | Every part of the component sees the entity's properties followed by the DTO's properties once: one show flag per block, and an enabling statement for every disabling one. | not executed | UiComponent.AsWrittenDuplicatesCustomDtoMembers (with UiComponent.GenerateComponentAsWritten, UiComponent.AsWrittenShowFlagsCountGap, UiComponent.AsWrittenToggleCountGap) | UiComponent.GenerateComponent (with UiComponent.CorrectedShowFlagsMatchBlocks, UiComponent.CorrectedToggleSymmetry) |
