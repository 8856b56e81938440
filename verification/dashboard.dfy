/**
  The lookups of app/screens/DashboardScreen.js: the greeting for the hour of
  the day, the badge colours for an issue's priority and status, and where a
  quick action navigates. The clock is the parameter `hour`; navigation is the
  returned target.
*/
module DashboardScreen {
  import opened Optional

  // ---------------------------------------------------------------------------
  // Greeting
  // ---------------------------------------------------------------------------

  /** `getGreeting`: morning before 12, afternoon before 17, evening after. */
  function Greeting(hour: int): (greeting: string)
    ensures greeting == "Good Morning" <==> hour < 12
    ensures greeting == "Good Afternoon" <==> 12 <= hour < 17
    ensures greeting == "Good Evening" <==> 17 <= hour
  {
    if hour < 12 then "Good Morning"
    else if hour < 17 then "Good Afternoon"
    else "Good Evening"
  }

  /** The position of a greeting in the course of a day. */
  function GreetingRank(greeting: string): int {
    if greeting == "Good Morning" then 0 else if greeting == "Good Afternoon" then 1 else 2
  }

  /**
    Every hour of the day gets exactly one of the three greetings, and a later
    hour never gets an earlier greeting.
  */
  lemma GreetingsFollowTheDay(h1: int, h2: int)
    requires 0 <= h1 <= h2 < 24
    ensures Greeting(h1) in {"Good Morning", "Good Afternoon", "Good Evening"}
    ensures GreetingRank(Greeting(h1)) <= GreetingRank(Greeting(h2))
  {
  }

  // ---------------------------------------------------------------------------
  // Badge colours
  // ---------------------------------------------------------------------------

  /** The grey used for any priority or status the tables do not list. */
  const UnknownColor: string := "#6B7280"

  /** The priority colours, by priority. */
  const PriorityColors: map<string, string> := map["High" := "#EF4444", "Medium" := "#F59E0B", "Low" := "#10B981"]

  /** The status colours, by status. */
  const StatusColors: map<string, string> :=
    map["Resolved" := "#10B981", "In Progress" := "#3B82F6", "Assigned" := "#8B5CF6", "Pending" := "#F59E0B"]

  /** `getPriorityColor`: the listed colour of a known priority, grey for any other string. */
  function PriorityColor(priority: string): (color: string)
    ensures color == if priority in PriorityColors then PriorityColors[priority] else UnknownColor
  {
    match priority
    case "High" => "#EF4444"
    case "Medium" => "#F59E0B"
    case "Low" => "#10B981"
    case _ => UnknownColor
  }

  /** `getStatusColor`: the listed colour of a known status, grey for any other string. */
  function StatusColor(status: string): (color: string)
    ensures color == if status in StatusColors then StatusColors[status] else UnknownColor
  {
    match status
    case "Resolved" => "#10B981"
    case "In Progress" => "#3B82F6"
    case "Assigned" => "#8B5CF6"
    case "Pending" => "#F59E0B"
    case _ => UnknownColor
  }

  /**
    The priority colour tells the three priorities apart and from an unknown
    one; the comparison is case-sensitive, so "high" is unknown.
  */
  lemma PriorityColorsDistinguish(p1: string, p2: string)
    requires p1 in PriorityColors
    ensures PriorityColor(p1) != UnknownColor
    ensures PriorityColor(p1) == PriorityColor(p2) ==> p1 == p2
    ensures PriorityColor("high") == UnknownColor
  {
  }

  /** The status colour tells the four statuses apart and from an unknown one. */
  lemma StatusColorsDistinguish(s1: string, s2: string)
    requires s1 in StatusColors
    ensures StatusColor(s1) != UnknownColor
    ensures StatusColor(s1) == StatusColor(s2) ==> s1 == s2
  {
  }

  // ---------------------------------------------------------------------------
  // Quick actions
  // ---------------------------------------------------------------------------

  /**
    `handleQuickAction`: the screen a quick action navigates to, or `None`
    when it only logs its route.
  */
  function QuickActionTarget(route: string): (target: Option<string>)
    ensures target == Some("Report Issue") <==> route == "ReportIssue"
    ensures target == Some("Heat Map") <==> route == "HeatMap"
    ensures target.None? <==> route != "ReportIssue" && route != "HeatMap"
  {
    if route == "ReportIssue" then Some("Report Issue")
    else if route == "HeatMap" then Some("Heat Map")
    else None
  }

  /** The routes of the dashboard's four quick actions, in display order. */
  const QuickActionRoutes: seq<string> := ["ReportIssue", "HeatMap", "Emergency", "Feedback"]

  /** Of the four quick actions, the first two navigate and Emergency and Feedback do nothing. */
  lemma QuickActionsOnTheDashboard()
    ensures QuickActionTarget(QuickActionRoutes[0]) == Some("Report Issue")
    ensures QuickActionTarget(QuickActionRoutes[1]) == Some("Heat Map")
    ensures QuickActionTarget(QuickActionRoutes[2]).None? && QuickActionTarget(QuickActionRoutes[3]).None?
  {
  }
}
