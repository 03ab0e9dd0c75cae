/**
 * The panel header component of the UI library: its tabs, the default title, and the
 * tab selection, which clears every tab's flag in place and then sets the chosen one.
 */
module PanelHeader {
  import opened Wrappers

  /** SpiderTab: every field is optional (`undefined` when not given); `tabLabel` is the `label` field. */
  class SpiderTab {
    var tabLabel: Option<string>
    var id: Option<int>
    var icon: Option<string>
    var isSelected: Option<bool>

    /** The constructor copies each given field; a field not given stays `undefined`. */
    constructor(tabLabel: Option<string>, id: Option<int>, icon: Option<string>, isSelected: Option<bool>)
      ensures this.tabLabel == tabLabel && this.id == id && this.icon == icon && this.isSelected == isSelected
    {
      this.tabLabel := tabLabel;
      this.id := id;
      this.icon := icon;
      this.isSelected := isSelected;
    }

    /** `new SpiderTab()`: the destructured default `{}` leaves every field `undefined`. */
    constructor Empty()
      ensures tabLabel.None? && id.None? && icon.None? && isSelected.None?
    {
      tabLabel := None;
      id := None;
      icon := None;
      isSelected := None;
    }
  }

  /** The fields of one tab, as a value. */
  datatype TabView = TabView(tabLabel: Option<string>, id: Option<int>, icon: Option<string>, isSelected: Option<bool>)

  function ViewOf(t: SpiderTab): TabView
    reads t
  {
    TabView(t.tabLabel, t.id, t.icon, t.isSelected)
  }

  /** The tabs' fields, in tab order. */
  function Views(tabs: seq<SpiderTab>): (r: seq<TabView>)
    reads set t | t in tabs
    ensures |r| == |tabs|
    ensures forall i :: 0 <= i < |tabs| ==> r[i] == ViewOf(tabs[i])
  {
    if tabs == [] then [] else Views(tabs[..|tabs| - 1]) + [ViewOf(tabs[|tabs| - 1])]
  }

  /** Which positions of `tabs` hold the chosen tab (the same object may appear more than once). */
  function IsTab(tabs: seq<SpiderTab>, tab: SpiderTab): (r: seq<bool>)
    ensures |r| == |tabs|
    ensures forall i :: 0 <= i < |tabs| ==> (r[i] <==> tabs[i] == tab)
  {
    if tabs == [] then [] else IsTab(tabs[..|tabs| - 1], tab) + [tabs[|tabs| - 1] == tab]
  }

  /** The tabs after a selection: the chosen positions selected, all others not, nothing else changed. */
  function Selected(views: seq<TabView>, chosen: seq<bool>): (r: seq<TabView>)
    requires |chosen| == |views|
    ensures |r| == |views|
  {
    if views == [] then []
    else Selected(views[..|views| - 1], chosen[..|chosen| - 1])
         + [views[|views| - 1].(isSelected := Some(chosen[|chosen| - 1]))]
  }

  /** Position `i` after a selection: its flag says whether it was chosen; tabLabel, id and icon are kept. */
  lemma {:induction false} SelectedIndex(views: seq<TabView>, chosen: seq<bool>, i: nat)
    requires |chosen| == |views| && i < |views|
    ensures Selected(views, chosen)[i] == views[i].(isSelected := Some(chosen[i]))
  {
    if i < |views| - 1 {
      SelectedIndex(views[..|views| - 1], chosen[..|chosen| - 1], i);
    }
  }

  /** A state whose every position is its selected counterpart is the selection. */
  lemma SelectedByIndex(views: seq<TabView>, chosen: seq<bool>, after: seq<TabView>)
    requires |chosen| == |views| == |after|
    requires forall i :: 0 <= i < |views| ==> after[i] == views[i].(isSelected := Some(chosen[i]))
    ensures after == Selected(views, chosen)
  {
    forall i | 0 <= i < |views| ensures after[i] == Selected(views, chosen)[i] {
      SelectedIndex(views, chosen, i);
    }
  }

  /** Selecting the same positions twice gives the state of selecting them once. */
  lemma {:induction false} SelectedIdempotent(views: seq<TabView>, chosen: seq<bool>)
    requires |chosen| == |views|
    ensures Selected(Selected(views, chosen), chosen) == Selected(views, chosen)
  {
    var once := Selected(views, chosen);
    forall i | 0 <= i < |views| ensures Selected(once, chosen)[i] == once[i] {
      SelectedIndex(views, chosen, i);
      SelectedIndex(once, chosen, i);
    }
  }

  /** The state after a selection does not depend on which tabs were selected before. */
  lemma {:induction false} SelectedForgetsHistory(views: seq<TabView>, others: seq<TabView>, chosen: seq<bool>)
    requires |chosen| == |views| == |others|
    requires forall i :: 0 <= i < |views| ==>
      views[i].tabLabel == others[i].tabLabel && views[i].id == others[i].id && views[i].icon == others[i].icon
    ensures Selected(views, chosen) == Selected(others, chosen)
  {
    forall i | 0 <= i < |views| ensures Selected(views, chosen)[i] == Selected(others, chosen)[i] {
      SelectedIndex(views, chosen, i);
      SelectedIndex(others, chosen, i);
    }
  }

  /**
   * After selecting `tab`, a position is selected exactly when it holds `tab`; when `tab`
   * is not in the list, no position is.
   */
  lemma SelectionOfTab(views: seq<TabView>, tabs: seq<SpiderTab>, tab: SpiderTab)
    requires |views| == |tabs|
    ensures forall i :: 0 <= i < |tabs| ==> Selected(views, IsTab(tabs, tab))[i].isSelected == Some(tabs[i] == tab)
    ensures tab !in tabs ==> forall i :: 0 <= i < |tabs| ==> Selected(views, IsTab(tabs, tab))[i].isSelected == Some(false)
  {
    forall i | 0 <= i < |tabs| ensures Selected(views, IsTab(tabs, tab))[i].isSelected == Some(tabs[i] == tab) {
      SelectedIndex(views, IsTab(tabs, tab), i);
    }
  }

  class PanelHeaderComponent {
    var icon: string
    var title: Option<string>
    var bigTitle: Option<bool>
    var index: Option<int>
    var tabs: seq<SpiderTab>

    /** A fresh header: the default icon, every other input unset, and no tabs bound yet. */
    constructor()
      ensures icon == "pi pi-file-edit" && title.None? && bigTitle.None? && index.None? && tabs == []
    {
      icon := "pi pi-file-edit";
      title := None;
      bigTitle := None;
      index := None;
      tabs := [];
    }

    /** ngOnInit: a header without a title gets the translated "Details"; a given title is kept. */
    method NgOnInit(translatedDetails: string)
      modifies this
      ensures old(title).None? ==> title == Some(translatedDetails)
      ensures old(title).Some? ==> title == old(title)
      ensures icon == old(icon) && bigTitle == old(bigTitle) && index == old(index) && tabs == old(tabs)
    {
      if title.None? {
        title := Some(translatedDetails);
      }
    }

    /**
     * setTabIsSelected: every tab of the list ends unselected except the chosen one, which
     * ends selected whether or not it is in the list; no other field changes.
     */
    method SetTabIsSelected(tab: SpiderTab)
      modifies set t | t in tabs
      modifies tab
      ensures tabs == old(tabs)
      ensures Views(tabs) == Selected(old(Views(tabs)), IsTab(tabs, tab))
      ensures tab.isSelected == Some(true)
      ensures tab.tabLabel == old(tab.tabLabel) && tab.id == old(tab.id) && tab.icon == old(tab.icon)
    {
      ghost var before := Views(tabs);
      ClearSelection();
      tab.isSelected := Some(true);
      ghost var chosen := IsTab(tabs, tab);
      forall j | 0 <= j < |tabs|
        ensures Views(tabs)[j] == before[j].(isSelected := Some(chosen[j]))
      {
        assert tabs[j].isSelected == Some(tabs[j] == tab);
      }
      SelectedByIndex(before, chosen, Views(tabs));
    }

    /** The `forEach` of setTabIsSelected: every tab of the list is unselected; no other field changes. */
    method ClearSelection()
      modifies set t | t in tabs
      ensures tabs == old(tabs)
      ensures forall j :: 0 <= j < |tabs| ==> tabs[j].isSelected == Some(false)
      ensures forall j :: 0 <= j < |tabs| ==>
        tabs[j].tabLabel == old(tabs[j].tabLabel) && tabs[j].id == old(tabs[j].id) && tabs[j].icon == old(tabs[j].icon)
    {
      var i := 0;
      while i < |tabs|
        invariant 0 <= i <= |tabs|
        invariant forall j :: 0 <= j < i ==> tabs[j].isSelected == Some(false)
        invariant forall j :: 0 <= j < |tabs| ==>
          tabs[j].tabLabel == old(tabs[j].tabLabel) && tabs[j].id == old(tabs[j].id) && tabs[j].icon == old(tabs[j].icon)
        modifies set t | t in tabs
      {
        tabs[i].isSelected := Some(false);
        i := i + 1;
      }
    }
  }
}
