/** The tab bar's two role-dependent tables: tab name to tab position (for
    the initially selected tab) and tab position to tab name (for the tab a
    click selects). An employee has no "reports" tab, so every later tab
    moves one position left. */
module HorizontalMenu {
  import opened Wrappers

  const AdminTabs: seq<string> := ["dashboard", "employees", "reports", "notifications", "favorites", "help"]
  const EmployeeTabs: seq<string> := ["dashboard", "employees", "notifications", "favorites", "help"]

  /** The tabs shown to a role, in position order. */
  function Tabs(isAdmin: bool): seq<string> {
    if isAdmin then AdminTabs else EmployeeTabs
  }

  /** `getInitialTabValue`: the position of the active tab; None (null) for
      "reports" when the user is not an admin; 0 for an unknown name. */
  function TabIndex(activeTab: string, isAdmin: bool): (r: Option<int>)
    ensures r.None? <==> !isAdmin && activeTab == "reports"
    ensures activeTab !in AdminTabs ==> r == Some(0)
    ensures r.Some? ==> 0 <= r.value < |Tabs(isAdmin)|
  {
    match activeTab
    case "dashboard" => Some(0)
    case "employees" => Some(1)
    case "reports" => if isAdmin then Some(2) else None
    case "notifications" => Some(if isAdmin then 3 else 2)
    case "favorites" => Some(if isAdmin then 4 else 3)
    case "help" => Some(if isAdmin then 5 else 4)
    case _ => Some(0)
  }

  /** The tab name `handleChange` reports for a selected position; "dashboard" for any other position. */
  function TabName(index: int, isAdmin: bool): (name: string)
    ensures name in Tabs(isAdmin)
    ensures !(0 <= index < |Tabs(isAdmin)|) ==> name == "dashboard"
  {
    if isAdmin then
      match index
      case 0 => "dashboard"
      case 1 => "employees"
      case 2 => "reports"
      case 3 => "notifications"
      case 4 => "favorites"
      case 5 => "help"
      case _ => "dashboard"
    else
      match index
      case 0 => "dashboard"
      case 1 => "employees"
      case 2 => "notifications"
      case 3 => "favorites"
      case 4 => "help"
      case _ => "dashboard"
  }

  /** Position to name to position: the tables agree for every position of either role. */
  lemma IndexNameRoundTrip(isAdmin: bool, i: int)
    requires 0 <= i < |Tabs(isAdmin)|
    ensures TabName(i, isAdmin) == Tabs(isAdmin)[i]
    ensures TabIndex(TabName(i, isAdmin), isAdmin) == Some(i)
  {
  }

  /** Name to position to name: every tab a role has comes back unchanged. */
  lemma NameIndexRoundTrip(tab: string, isAdmin: bool)
    requires tab in Tabs(isAdmin)
    ensures TabIndex(tab, isAdmin).Some?
    ensures TabName(TabIndex(tab, isAdmin).value, isAdmin) == tab
  {
  }

  /** Tabs after "employees" sit one position further left for an employee. */
  lemma EmployeePositionsShift(tab: string)
    requires tab in AdminTabs[3..]
    ensures TabIndex(tab, false).Some? && TabIndex(tab, true).Some?
    ensures TabIndex(tab, false).value == TabIndex(tab, true).value - 1
  {
  }
}
