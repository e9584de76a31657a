/** The main tab navigator: its three declared tabs and the icon each route name gets. */
module Tabs {
  import opened JsValues

  const DefaultIcon := "help-circle-outline"

  /** The route-to-icon mapping the tab bar is meant to implement. */
  const IconTable: map<string, string> :=
    map["Home" := "home-outline", "Profile" := "person-outline", "Books" := "book-outline"]

  /** The `switch` on `route.name`: total, with the default icon for every unlisted name. */
  function TabIcon(route: string): (icon: string)
    ensures route in IconTable ==> icon == IconTable[route]
    ensures route !in IconTable ==> icon == DefaultIcon
  {
    if route == "Home" then "home-outline"
    else if route == "Profile" then "person-outline"
    else if route == "Books" then "book-outline"
    else DefaultIcon
  }

  /** A declared tab: its route name and its badge, if any. */
  datatype TabScreen = TabScreen(name: string, badge: Option<int>)

  /** The tabs in the order they are declared. */
  const DeclaredTabs: seq<TabScreen> :=
    [TabScreen("Home", Some(5)), TabScreen("Books", None), TabScreen("Profile", None)]

  /** Three tabs, Home, Books and Profile in that order. */
  lemma DeclaredTabOrder()
    ensures |DeclaredTabs| == 3
    ensures DeclaredTabs[0].name == "Home" && DeclaredTabs[1].name == "Books" && DeclaredTabs[2].name == "Profile"
  {
  }

  /** The icon table lists exactly the declared tabs. */
  lemma IconTableCoversTabs()
    ensures IconTable.Keys == set t | t in DeclaredTabs :: t.name
  {
  }

  /** Every declared tab gets an icon of its own, none of them the default. */
  lemma DeclaredTabsHaveIcons()
    ensures forall t :: t in DeclaredTabs ==> TabIcon(t.name) != DefaultIcon
    ensures forall i, j :: 0 <= i < j < |DeclaredTabs| ==>
      TabIcon(DeclaredTabs[i].name) != TabIcon(DeclaredTabs[j].name)
  {
  }

  /** Only the Home tab carries a badge, and its value is 5. */
  lemma OnlyHomeHasBadge()
    ensures forall t :: t in DeclaredTabs ==> (t.badge.Some? <==> t.name == "Home")
    ensures forall t :: t in DeclaredTabs && t.badge.Some? ==> t.badge.value == 5
  {
  }
}
