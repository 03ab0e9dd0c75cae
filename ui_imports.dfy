/**
 * The per-project import lines of the generated file (GetImports, GetDynamicNgImports):
 * one line per namespace, naming each imported class once, and none for the Shared and
 * Security projects.
 */
module UiImports {
  import opened Collections
  import opened Strings
  import opened Metadata

  /** AngularImport: a class name and the namespace it is imported from. */
  datatype AngularImport = AngularImport(namespace: string, name: string)

  /**
   * The imports GetImports collects, in this order: the custom DTOs (under their entity's
   * name), the entities, and the entities' save bodies.
   */
  function ImportsOf(dtos: seq<SpiderClass>, entities: seq<SpiderClass>): (r: seq<AngularImport>)
    ensures |r| == |dtos| + 2 * |entities|
    ensures forall i :: 0 <= i < |dtos| ==>
      r[i] == AngularImport(ReplaceAll(dtos[i].namespace, ".DTO", ""), ReplaceAll(dtos[i].name, "DTO", ""))
    ensures forall i :: 0 <= i < |entities| ==>
      && r[|dtos| + i] == AngularImport(ReplaceAll(entities[i].namespace, ".Entities", ""), entities[i].name)
      && r[|dtos| + |entities| + i] == AngularImport(ReplaceAll(entities[i].namespace, ".Entities", ""), entities[i].name + "SaveBody")
  {
    Map(dtos, (x: SpiderClass) => AngularImport(ReplaceAll(x.namespace, ".DTO", ""), ReplaceAll(x.name, "DTO", "")))
    + Map(entities, (x: SpiderClass) => AngularImport(ReplaceAll(x.namespace, ".Entities", ""), x.name))
    + Map(entities, (x: SpiderClass) => AngularImport(ReplaceAll(x.namespace, ".Entities", ""), x.name + "SaveBody"))
  }

  /** One `import { A, B } from '../../entities/{project}-entities.generated';` line. */
  datatype ImportLine = ImportLine(projectName: string, names: seq<string>)

  predicate IsSkippedProject(projectName: string) {
    projectName == "Shared" || projectName == "Security"
  }

  function ImportName(x: AngularImport): string {
    x.name
  }

  /** The line of one namespace group: `DistinctBy(Name).Select(Name)` keeps each name once, in first-appearance order. */
  function ImportLineOf(g: Group<string, AngularImport>): ImportLine {
    ImportLine(LastSegment(g.key), Distinct(Map(g.members, ImportName)))
  }

  /** The lines of the groups, skipping the Shared and Security projects. */
  function ImportLinesOf(groups: seq<Group<string, AngularImport>>): seq<ImportLine> {
    if groups == [] then []
    else
      var g := groups[|groups| - 1];
      ImportLinesOf(groups[..|groups| - 1]) + (if IsSkippedProject(LastSegment(g.key)) then [] else [ImportLineOf(g)])
  }

  function ImportNamespace(x: AngularImport): string {
    x.namespace
  }

  /** GetDynamicNgImports: one line per namespace, in order of first appearance. */
  method GetDynamicNgImports(imports: seq<AngularImport>) returns (lines: seq<ImportLine>)
    ensures lines == ImportLinesOf(GroupBy(imports, ImportNamespace))
  {
    var groups := GroupBy(imports, ImportNamespace);
    lines := [];
    var i := 0;
    while i < |groups|
      invariant 0 <= i <= |groups|
      invariant lines == ImportLinesOf(groups[..i])
    {
      var g := groups[i];
      assert groups[..i + 1][..i] == groups[..i];
      var projectName := LastSegment(g.key);
      if !(projectName == "Shared" || projectName == "Security") {
        lines := lines + [ImportLine(projectName, Distinct(Map(g.members, ImportName)))];
      }
      i := i + 1;
    }
    assert groups[..i] == groups;
  }

  /** The lines are exactly the non-skipped groups' lines. */
  lemma ImportLinesExactly(groups: seq<Group<string, AngularImport>>, l: ImportLine)
    ensures l in ImportLinesOf(groups) <==>
      exists i :: 0 <= i < |groups| && !IsSkippedProject(LastSegment(groups[i].key)) && l == ImportLineOf(groups[i])
  {
    if l in ImportLinesOf(groups) {
      ImportLineHasGroup(groups, l);
    }
    if exists i :: 0 <= i < |groups| && !IsSkippedProject(LastSegment(groups[i].key)) && l == ImportLineOf(groups[i]) {
      var i :| 0 <= i < |groups| && !IsSkippedProject(LastSegment(groups[i].key)) && l == ImportLineOf(groups[i]);
      GroupHasImportLine(groups, i);
    }
  }

  /** Every line is the line of a non-skipped group. */
  lemma {:induction false} ImportLineHasGroup(groups: seq<Group<string, AngularImport>>, l: ImportLine)
    requires l in ImportLinesOf(groups)
    ensures exists i :: 0 <= i < |groups| && !IsSkippedProject(LastSegment(groups[i].key)) && l == ImportLineOf(groups[i])
  {
    var init, g := groups[..|groups| - 1], groups[|groups| - 1];
    if l in ImportLinesOf(init) {
      ImportLineHasGroup(init, l);
      var i :| 0 <= i < |init| && !IsSkippedProject(LastSegment(init[i].key)) && l == ImportLineOf(init[i]);
      assert groups[i] == init[i];
    } else {
      assert groups[|groups| - 1] == g;
    }
  }

  /** Every non-skipped group has its line. */
  lemma {:induction false} GroupHasImportLine(groups: seq<Group<string, AngularImport>>, i: nat)
    requires i < |groups| && !IsSkippedProject(LastSegment(groups[i].key))
    ensures ImportLineOf(groups[i]) in ImportLinesOf(groups)
  {
    var init := groups[..|groups| - 1];
    if i < |init| {
      GroupHasImportLine(init, i);
      assert groups[i] == init[i];
    }
  }

  /** No line imports from the Shared or Security project, and no line names a class twice. */
  lemma NoSkippedProjectOrRepeatedName(imports: seq<AngularImport>, l: ImportLine)
    requires l in ImportLinesOf(GroupBy(imports, ImportNamespace))
    ensures !IsSkippedProject(l.projectName)
    ensures NoDuplicates(l.names)
  {
    ImportLinesExactly(GroupBy(imports, ImportNamespace), l);
  }

  /**
   * Every import whose project is not Shared or Security is named on the line of its own
   * namespace's group.
   */
  lemma EveryImportIsCovered(imports: seq<AngularImport>, x: AngularImport)
    requires x in imports && !IsSkippedProject(LastSegment(x.namespace))
    ensures exists l :: (l in ImportLinesOf(GroupBy(imports, ImportNamespace))
                         && l.projectName == LastSegment(x.namespace) && x.name in l.names)
  {
    var groups := GroupBy(imports, ImportNamespace);
    GroupByPartitions(imports, ImportNamespace);
    var i :| 0 <= i < |groups| && groups[i].key == ImportNamespace(x) && x in groups[i].members;
    var l := ImportLineOf(groups[i]);
    var j :| 0 <= j < |groups[i].members| && groups[i].members[j] == x;
    assert Map(groups[i].members, ImportName)[j] == x.name;
    ImportLinesExactly(groups, l);
  }
}
