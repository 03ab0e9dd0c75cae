/**
 * The save-authorization part of a details component: the extra permission clauses an
 * entity's attributes add to `isAuthorizedForSave` (GetAdditionalPermissionCodes), the
 * rule itself, and the statements that enable or disable the form's controls once the
 * rule is decided (GetControlsForNonAuthorizedUser).
 */
module UiAuthorization {
  import opened Wrappers
  import opened Collections
  import opened Metadata
  import opened UiClassifier
  import opened UiOrdering
  import opened UiBlocks

  // ---------------------------------------------------------------------
  // Additional permission codes

  /** One `(currentUserPermissionCodes.includes('code') && this.modelId …) ||` clause. */
  datatype PermissionClause =
    | ForInsert(code: string)   // granted while the model is new (`modelId <= 0`)
    | ForUpdate(code: string)   // granted once the model exists (`modelId > 0`)

  /** The clause one class attribute contributes; a null value is interpolated as the empty string. */
  function PermissionClauseFor(a: Attribute): (c: Option<PermissionClause>)
    ensures c.Some? <==> a.name == "UIAdditionalPermissionCodeForInsert" || a.name == "UIAdditionalPermissionCodeForUpdate"
    ensures c.Some? ==> c.value.code == a.value.GetOr("")
    ensures c.Some? ==> (c.value.ForInsert? <==> a.name == "UIAdditionalPermissionCodeForInsert")
  {
    if a.name == "UIAdditionalPermissionCodeForInsert" then Some(ForInsert(a.value.GetOr("")))
    else if a.name == "UIAdditionalPermissionCodeForUpdate" then Some(ForUpdate(a.value.GetOr("")))
    else None
  }

  /** The clauses of all the class's attributes, in attribute order. */
  function PermissionClausesOf(attrs: seq<Attribute>): seq<PermissionClause> {
    if attrs == [] then []
    else
      var c := PermissionClauseFor(attrs[|attrs| - 1]);
      PermissionClausesOf(attrs[..|attrs| - 1]) + (if c.Some? then [c.value] else [])
  }

  /** GetAdditionalPermissionCodes: one clause per permission-code attribute, in order. */
  method GetAdditionalPermissionCodes(attrs: seq<Attribute>) returns (clauses: seq<PermissionClause>)
    ensures clauses == PermissionClausesOf(attrs)
  {
    clauses := [];
    var i := 0;
    while i < |attrs|
      invariant 0 <= i <= |attrs|
      invariant clauses == PermissionClausesOf(attrs[..i])
    {
      var a := attrs[i];
      assert attrs[..i + 1][..i] == attrs[..i];
      if a.name == "UIAdditionalPermissionCodeForInsert" {
        clauses := clauses + [ForInsert(a.value.GetOr(""))];
      } else if a.name == "UIAdditionalPermissionCodeForUpdate" {
        clauses := clauses + [ForUpdate(a.value.GetOr(""))];
      }
      i := i + 1;
    }
    assert attrs[..i] == attrs;
  }

  /** A clause holds for the current user's codes and the model's id. */
  predicate ClauseGrants(c: PermissionClause, codes: seq<string>, modelId: int) {
    match c
    case ForInsert(code) => code in codes && modelId <= 0
    case ForUpdate(code) => code in codes && modelId > 0
  }

  /** The entity's own rule: `Insert{Entity}` for a new model, `Update{Entity}` for an existing one. */
  predicate BaseRuleGrants(entityName: string, codes: seq<string>, modelId: int) {
    ("Insert" + entityName in codes && modelId <= 0) || ("Update" + entityName in codes && modelId > 0)
  }

  /** `this.isAuthorizedForSave = <additional clauses> || <base rule> || isAuthorizedForSave`. */
  predicate IsAuthorizedForSave(clauses: seq<PermissionClause>, entityName: string, codes: seq<string>,
                                modelId: int, serverSaysAuthorized: bool) {
    (exists i :: 0 <= i < |clauses| && ClauseGrants(clauses[i], codes, modelId))
    || BaseRuleGrants(entityName, codes, modelId)
    || serverSaysAuthorized
  }

  /** An attribute of the class whose code, held by the user, grants saving for this model. */
  predicate AttributeGrants(a: Attribute, codes: seq<string>, modelId: int) {
    && a.value.GetOr("") in codes
    && ((a.name == "UIAdditionalPermissionCodeForInsert" && modelId <= 0)
        || (a.name == "UIAdditionalPermissionCodeForUpdate" && modelId > 0))
  }

  /** Some clause grants exactly when some attribute of the class grants. */
  lemma {:induction false} ClausesGrantIffAttributeGrants(attrs: seq<Attribute>, codes: seq<string>, modelId: int)
    ensures (exists i :: 0 <= i < |PermissionClausesOf(attrs)| && ClauseGrants(PermissionClausesOf(attrs)[i], codes, modelId))
        <==> (exists j :: 0 <= j < |attrs| && AttributeGrants(attrs[j], codes, modelId))
  {
    if attrs != [] {
      var init := attrs[..|attrs| - 1];
      var last := attrs[|attrs| - 1];
      ClausesGrantIffAttributeGrants(init, codes, modelId);
      var c := PermissionClauseFor(last);
      var rest := PermissionClausesOf(init);
      var all := PermissionClausesOf(attrs);
      assert all == rest + (if c.Some? then [c.value] else []);
      assert c.Some? ==> (ClauseGrants(c.value, codes, modelId) <==> AttributeGrants(last, codes, modelId));
      assert c.None? ==> !AttributeGrants(last, codes, modelId);
      if exists i :: 0 <= i < |all| && ClauseGrants(all[i], codes, modelId) {
        var i :| 0 <= i < |all| && ClauseGrants(all[i], codes, modelId);
        if i < |rest| {
          assert ClauseGrants(rest[i], codes, modelId);
          var j :| 0 <= j < |init| && AttributeGrants(init[j], codes, modelId);
          assert attrs[j] == init[j];
        } else {
          assert AttributeGrants(attrs[|attrs| - 1], codes, modelId);
        }
      }
      if exists j :: 0 <= j < |attrs| && AttributeGrants(attrs[j], codes, modelId) {
        var j :| 0 <= j < |attrs| && AttributeGrants(attrs[j], codes, modelId);
        if j < |init| {
          assert AttributeGrants(init[j], codes, modelId);
          var i :| 0 <= i < |rest| && ClauseGrants(rest[i], codes, modelId);
          assert all[i] == rest[i];
        } else {
          assert ClauseGrants(all[|rest|], codes, modelId);
        }
      }
    }
  }

  /**
   * The generated rule for an entity grants saving exactly when the server does, the
   * entity's own Insert/Update code applies, or one of its permission-code attributes
   * names a code the user holds for the current mode (insert or update).
   */
  lemma AuthorizationRule(entity: SpiderClass, codes: seq<string>, modelId: int, serverSaysAuthorized: bool)
    ensures IsAuthorizedForSave(PermissionClausesOf(entity.attributes), entity.name, codes, modelId, serverSaysAuthorized)
        <==> serverSaysAuthorized
             || BaseRuleGrants(entity.name, codes, modelId)
             || (exists j :: 0 <= j < |entity.attributes| && AttributeGrants(entity.attributes[j], codes, modelId))
  {
    ClausesGrantIffAttributeGrants(entity.attributes, codes, modelId);
  }

  /** Without permission-code attributes there are no clauses, and the rule is the entity's own. */
  lemma {:induction false} NoPermissionAttributes(attrs: seq<Attribute>)
    requires forall j :: 0 <= j < |attrs| ==>
      attrs[j].name != "UIAdditionalPermissionCodeForInsert" && attrs[j].name != "UIAdditionalPermissionCodeForUpdate"
    ensures PermissionClausesOf(attrs) == []
  {
    if attrs != [] {
      NoPermissionAttributes(attrs[..|attrs| - 1]);
    }
  }

  /** The extra clauses only ever widen who may save: the base rule and the server's answer still grant. */
  lemma AdditionalClausesOnlyWiden(clauses: seq<PermissionClause>, entityName: string, codes: seq<string>,
                                   modelId: int, serverSaysAuthorized: bool)
    ensures IsAuthorizedForSave([], entityName, codes, modelId, serverSaysAuthorized)
        ==> IsAuthorizedForSave(clauses, entityName, codes, modelId, serverSaysAuthorized)
  {
  }

  /** A clause never grants in both modes: insert clauses need a new model, update clauses an existing one. */
  lemma ClauseModeExclusive(c: PermissionClause, codes: seq<string>, id1: int, id2: int)
    requires ClauseGrants(c, codes, id1) && ClauseGrants(c, codes, id2)
    ensures (id1 <= 0) == (id2 <= 0)
  {
  }

  // ---------------------------------------------------------------------
  // Enabling and disabling the form's controls

  datatype Verb = Enable | Disable

  /** `(disable ? "disable" : "enable")`. */
  function VerbFor(disable: bool): (v: Verb)
    ensures v.Disable? <==> disable
  {
    if disable then Disable else Enable
  }

  /** One statement of GetControlsForNonAuthorizedUser. */
  datatype ToggleLine =
    | MultiControlToggle(controlName: string, verb: Verb)
      // `this.{control}.{verb}();`
    | FormArrayToggle(formArrayName: string, verb: Verb)
      // `this.baseFormService.{verb}AllFormControls(this.{array});`
    | FormGroupControlToggle(formGroupName: string, controlName: string, verb: Verb)
      // `this.{group}.controls.{control}.{verb}();`

  /** The statement one form block contributes, if any. */
  function ToggleLineFor(h: Helpers, entityName: string, b: FormBlock, verb: Verb): (line: Option<ToggleLine>)
    ensures line.Some? ==> line.value.verb == verb
    ensures line.None? <==>
      b.formControlName.None? && !(h.isOneToManyType(b.property.typeName) && h.hasUIOrderedOneToManyAttribute(b.property))
    ensures line.Some? && line.value.FormArrayToggle? ==>
      && b.formControlName.None?
      && h.hasUIOrderedOneToManyAttribute(b.property)
      && line.value.formArrayName == h.firstCharToLower(b.property.name) + "FormArray"
    ensures line.Some? && !line.value.FormArrayToggle? ==>
      b.formControlName.Some? && line.value.controlName == b.formControlName.value
    ensures line.Some? && line.value.MultiControlToggle? <==> b.formControlName.Some? && IsMultiControl(h, b.property)
    ensures line.Some? && line.value.FormGroupControlToggle? ==>
      line.value.formGroupName == h.firstCharToLower(entityName) + "FormGroup"
  {
    if b.formControlName.Some? && IsMultiControl(h, b.property) then
      Some(MultiControlToggle(b.formControlName.value, verb))
    else if b.formControlName.None? && h.isOneToManyType(b.property.typeName) && h.hasUIOrderedOneToManyAttribute(b.property) then
      Some(FormArrayToggle(h.firstCharToLower(b.property.name) + "FormArray", verb))
    else if b.formControlName.Some? then
      Some(FormGroupControlToggle(h.firstCharToLower(entityName) + "FormGroup", b.formControlName.value, verb))
    else None
  }

  /** The statements of a list of form blocks, in block order. */
  function ToggleLinesOf(h: Helpers, entityName: string, blocks: seq<FormBlock>, verb: Verb): seq<ToggleLine> {
    if blocks == [] then []
    else
      var line := ToggleLineFor(h, entityName, blocks[|blocks| - 1], verb);
      ToggleLinesOf(h, entityName, blocks[..|blocks| - 1], verb) + (if line.Some? then [line.value] else [])
  }

  /**
   * GetControlsForNonAuthorizedUser: grows the caller's list with the custom DTO's
   * properties (through GetAngularFormBlocks) and emits one statement per form block
   * that has a control to switch.
   */
  method GetControlsForNonAuthorizedUser(h: Helpers, properties: PropertyList, entityName: string,
                                         dtos: seq<SpiderClass>, disable: bool)
    returns (lines: seq<ToggleLine>)
    requires UniqueCustomDto(dtos, entityName)
    requires FormBlocksDefined(h, properties.items + CustomDtoProperties(dtos, entityName))
    modifies properties
    ensures properties.items == old(properties.items) + CustomDtoProperties(dtos, entityName)
    ensures lines == ToggleLinesOf(h, entityName, FormBlocksOf(h, entityName, GetPropertiesForUIBlocks(h, properties.items)), VerbFor(disable))
  {
    var blocks := GetAngularFormBlocks(h, properties, entityName, dtos);
    lines := BuildToggleLines(h, entityName, blocks, VerbFor(disable));
  }

  /** The `foreach` of GetControlsForNonAuthorizedUser over the form blocks. */
  method BuildToggleLines(h: Helpers, entityName: string, blocks: seq<FormBlock>, verb: Verb) returns (lines: seq<ToggleLine>)
    ensures lines == ToggleLinesOf(h, entityName, blocks, verb)
  {
    lines := [];
    var i := 0;
    while i < |blocks|
      invariant 0 <= i <= |blocks|
      invariant lines == ToggleLinesOf(h, entityName, blocks[..i], verb)
    {
      var b := blocks[i];
      assert blocks[..i + 1][..i] == blocks[..i];
      if b.formControlName.Some? && (h.isMultiSelectControlType(b.property) || h.isMultiAutocompleteControlType(b.property)) {
        lines := lines + [MultiControlToggle(b.formControlName.value, verb)];
      } else if b.formControlName.None? && h.isOneToManyType(b.property.typeName) && h.hasUIOrderedOneToManyAttribute(b.property) {
        lines := lines + [FormArrayToggle(h.firstCharToLower(b.property.name) + "FormArray", verb)];
      } else if b.formControlName.Some? {
        lines := lines + [FormGroupControlToggle(h.firstCharToLower(entityName) + "FormGroup", b.formControlName.value, verb)];
      }
      i := i + 1;
    }
    assert blocks[..i] == blocks;
  }

  /**
   * The enabling and the disabling statements of the same blocks are the same statements
   * with the verb swapped: every control that is disabled for an unauthorized user is
   * enabled for an authorized one, and no other.
   */
  lemma {:induction false} ToggleVerbSwap(h: Helpers, entityName: string, blocks: seq<FormBlock>, v: Verb, w: Verb)
    ensures |ToggleLinesOf(h, entityName, blocks, v)| == |ToggleLinesOf(h, entityName, blocks, w)|
    ensures forall i :: 0 <= i < |ToggleLinesOf(h, entityName, blocks, v)| ==>
      ToggleLinesOf(h, entityName, blocks, w)[i] == ToggleLinesOf(h, entityName, blocks, v)[i].(verb := w)
  {
    if blocks != [] {
      ToggleVerbSwap(h, entityName, blocks[..|blocks| - 1], v, w);
    }
  }

  /** Every statement carries the requested verb. */
  lemma {:induction false} ToggleLinesVerb(h: Helpers, entityName: string, blocks: seq<FormBlock>, v: Verb)
    ensures forall line :: line in ToggleLinesOf(h, entityName, blocks, v) ==> line.verb == v
  {
    if blocks != [] {
      ToggleLinesVerb(h, entityName, blocks[..|blocks| - 1], v);
    }
  }

  /**
   * Whether a UI-block property gets a statement: an ordered one-to-many list when its type
   * is a one-to-many collection; any other property unless it is a table without a multi
   * control. (The last `false` is the case GetUIControlType would throw on.)
   */
  predicate PropertyHasToggle(h: Helpers, p: Property) {
    if h.hasUIOrderedOneToManyAttribute(p) then h.isOneToManyType(p.typeName)
    else if IsMultiControl(h, p) then true
    else if AtMostOneNamed(p.attributes, "UIControlType") then GetUIControlType(h, p) != Table
    else false
  }

  lemma ToggleForBlock(h: Helpers, entityName: string, p: Property, v: Verb)
    requires FormBlockDefined(h, p)
    ensures ToggleLineFor(h, entityName, FormBlockFor(h, entityName, p), v).Some? <==> PropertyHasToggle(h, p)
  {
  }

  /** There is one statement per block whose property has a toggle. */
  lemma {:induction false} ToggleLinesCount(h: Helpers, entityName: string, ordered: seq<Property>, v: Verb)
    requires forall p :: p in ordered ==> FormBlockDefined(h, p)
    ensures |ToggleLinesOf(h, entityName, FormBlocksOf(h, entityName, ordered), v)| == CountWhere(ordered, p => PropertyHasToggle(h, p))
  {
    if ordered != [] {
      var init := ordered[..|ordered| - 1];
      var last := ordered[|ordered| - 1];
      ToggleLinesCount(h, entityName, init, v);
      var blocks := FormBlocksOf(h, entityName, ordered);
      assert blocks[..|blocks| - 1] == FormBlocksOf(h, entityName, init);
      ToggleForBlock(h, entityName, last, v);
      assert ordered == init + [last];
      CountWhereConcat(init, [last], p => PropertyHasToggle(h, p));
    }
  }

  /**
   * Over a whole property list, the statements number the kept properties that have a
   * toggle: the UI-block ordering neither adds nor drops any.
   */
  lemma ToggleLinesCountOverProperties(h: Helpers, entityName: string, properties: seq<Property>, v: Verb)
    requires FormBlocksDefined(h, properties)
    ensures |ToggleLinesOf(h, entityName, FormBlocksOf(h, entityName, GetPropertiesForUIBlocks(h, properties)), v)|
      == CountWhere(properties, p => KeepForUIBlocks(h, p) && PropertyHasToggle(h, p))
  {
    ToggleLinesCount(h, entityName, GetPropertiesForUIBlocks(h, properties), v);
    UIBlocksCount(h, properties, p => PropertyHasToggle(h, p), p => KeepForUIBlocks(h, p) && PropertyHasToggle(h, p));
  }
}
