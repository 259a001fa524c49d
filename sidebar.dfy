/**
 * The React app's sidebar: five top-level items, the WRF configuration item with the
 * wizard's pages as its sub-items, and the rule that decides which top-level item is
 * highlighted for the current route and whether its submenu is open.
 */
module Sidebar {
  import opened Wrappers
  import opened JsValue

  datatype SubItem = SubItem(title: string, href: string)

  /** A top-level item; only the WRF configuration item has sub-items. */
  datatype Item = Item(title: string, href: string, subItems: Option<seq<SubItem>>)

  /** How one top-level item is drawn: highlighted or not, the chevron if it has sub-items, the open submenu. */
  datatype ItemView = ItemView(href: string, active: bool, chevron: Option<bool>, submenu: Option<seq<SubItemView>>)

  /** A sub-item link, highlighted when it is the current route. */
  datatype SubItemView = SubItemView(href: string, current: bool)

  const WrfConfig := "/wrf-config"

  const WizardPages: seq<SubItem> := [
    SubItem("首页", "/"),
    SubItem("时间设置", "/time"),
    SubItem("域设置", "/domain"),
    SubItem("物理参数", "/physics"),
    SubItem("动力学设置", "/dynamics"),
    SubItem("配置审核", "/review"),
    SubItem("输出生成", "/output")
  ]

  const SidebarItems: seq<Item> := [
    Item("平台介绍", "/about", None),
    Item("WRF配置", WrfConfig, Some(WizardPages)),
    Item("WRF模拟运行结果", "/simulation-results", None),
    Item("风力资源分析", "/wind-analysis", None),
    Item("废效及经济效益分析", "/economic-analysis", None)
  ]

  /** The route prefixes of the wizard pages other than the home page. */
  const WizardPrefixes: seq<string> := ["/time", "/domain", "/physics", "/dynamics", "/review", "/output"]

  /** The route belongs to the WRF configuration wizard. */
  predicate WizardRoute(path: string)
  {
    path == "/" || exists i :: 0 <= i < |WizardPrefixes| && StartsWith(path, WizardPrefixes[i])
  }

  /** The wizard test, spelled out prefix by prefix. */
  lemma WizardRouteCases(path: string)
    ensures WizardRoute(path) <==>
      path == "/" || StartsWith(path, "/time") || StartsWith(path, "/domain") || StartsWith(path, "/physics")
      || StartsWith(path, "/dynamics") || StartsWith(path, "/review") || StartsWith(path, "/output")
  {
    if StartsWith(path, "/time") { assert StartsWith(path, WizardPrefixes[0]); }
    if StartsWith(path, "/domain") { assert StartsWith(path, WizardPrefixes[1]); }
    if StartsWith(path, "/physics") { assert StartsWith(path, WizardPrefixes[2]); }
    if StartsWith(path, "/dynamics") { assert StartsWith(path, WizardPrefixes[3]); }
    if StartsWith(path, "/review") { assert StartsWith(path, WizardPrefixes[4]); }
    if StartsWith(path, "/output") { assert StartsWith(path, WizardPrefixes[5]); }
  }

  /** The configuration item's own route is not a wizard route. */
  lemma ConfigNotWizard()
    ensures !WizardRoute(WrfConfig)
  {
    forall i | 0 <= i < |WizardPrefixes|
      ensures !StartsWith(WrfConfig, WizardPrefixes[i])
    {
      var p := WizardPrefixes[i];
      assert WrfConfig[..|p|][1] != p[1];
    }
  }

  /** `getActiveMainMenu()`: the WRF configuration item for a wizard route, else the route itself. */
  function ActiveMainMenu(path: string): (r: string)
    ensures r == WrfConfig <==> WizardRoute(path) || path == WrfConfig
    ensures r != WrfConfig ==> r == path
  {
    WizardRouteCases(path);
    ConfigNotWizard();
    if path == "/" || StartsWith(path, "/time") || StartsWith(path, "/domain") || StartsWith(path, "/physics")
       || StartsWith(path, "/dynamics") || StartsWith(path, "/review") || StartsWith(path, "/output")
    then WrfConfig
    else path
  }

  /** The sidebar drawn for the current route. */
  function Render(path: string): (views: seq<ItemView>)
    ensures |views| == |SidebarItems|
  {
    var active := ActiveMainMenu(path);
    seq(|SidebarItems|, i requires 0 <= i < |SidebarItems| =>
      var item := SidebarItems[i];
      var isActive := active == item.href;
      ItemView(item.href, isActive,
        if item.subItems.Some? then Some(isActive) else None,
        if isActive && item.subItems.Some? then
          Some(seq(|item.subItems.value|, j requires 0 <= j < |item.subItems.value| =>
            SubItemView(item.subItems.value[j].href, path == item.subItems.value[j].href)))
        else None))
  }

  /** Classifying the result again changes nothing. */
  lemma ActiveMainMenuIdempotent(path: string)
    ensures ActiveMainMenu(ActiveMainMenu(path)) == ActiveMainMenu(path)
  {
    ConfigNotWizard();
  }

  /** The match is on prefixes, so a route that merely begins like a wizard page counts as one. */
  lemma TimelineIsWizard()
    ensures ActiveMainMenu("/timeline") == WrfConfig
  {
    assert StartsWith("/timeline", "/time");
  }

  /** Every wizard page keeps the WRF configuration item highlighted. */
  lemma WizardPagesSelectConfig(j: int)
    requires 0 <= j < |WizardPages|
    ensures ActiveMainMenu(WizardPages[j].href) == WrfConfig
  {
    var h := WizardPages[j].href;
    if j > 0 {
      assert StartsWith(h, WizardPrefixes[j - 1]);
    }
  }

  /** The top-level hrefs are pairwise distinct. */
  lemma DistinctHrefs(i: int, j: int)
    requires 0 <= i < |SidebarItems| && 0 <= j < |SidebarItems| && i != j
    ensures SidebarItems[i].href != SidebarItems[j].href
  {
  }

  /** At most one top-level item is highlighted. */
  lemma AtMostOneActive(path: string, i: int, j: int)
    requires 0 <= i < |SidebarItems| && 0 <= j < |SidebarItems|
    requires Render(path)[i].active && Render(path)[j].active
    ensures i == j
  {
    if i != j {
      DistinctHrefs(i, j);
    }
  }

  /**
   * A submenu is open exactly for a highlighted item with sub-items; that is the WRF
   * configuration item, on a wizard route or on its own route, and the submenu lists the
   * wizard pages with the current one highlighted.
   */
  lemma SubmenuOpen(path: string, i: int)
    requires 0 <= i < |SidebarItems|
    ensures Render(path)[i].submenu.Some? <==> Render(path)[i].active && SidebarItems[i].subItems.Some?
    ensures Render(path)[i].submenu.Some? <==> i == 1 && (WizardRoute(path) || path == WrfConfig)
    ensures Render(path)[i].submenu.Some? ==>
      |Render(path)[i].submenu.value| == |WizardPages| &&
      forall j :: 0 <= j < |WizardPages| ==>
        Render(path)[i].submenu.value[j] == SubItemView(WizardPages[j].href, path == WizardPages[j].href)
  {
    var active := ActiveMainMenu(path);
    if active == SidebarItems[i].href && i != 1 {
      assert active != WrfConfig;
    }
  }
}
