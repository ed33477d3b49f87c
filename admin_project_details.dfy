/**
 * The project page of the admin area (`AdminProjectDetails.tsx`): which tab
 * the URL selects, which URL a tab leads to, and the page's own copy of the
 * reports tab's request body.
 */
module AdminProjectDetails {
  import opened Wrappers
  import opened JsText
  import ReportsTab

  /**
   * `getActiveTab`: the first of `/members`, `/payment-methods` and
   * `/reports` found in the path picks the tab; a path with none of them
   * shows the members.
   */
  function GetActiveTab(pathname: string): (tab: string)
    ensures tab == "members" || tab == "methods" || tab == "reports"
    ensures tab == "methods" <==> !Contains(pathname, "/members") && Contains(pathname, "/payment-methods")
    ensures tab == "reports" <==>
      !Contains(pathname, "/members") && !Contains(pathname, "/payment-methods") && Contains(pathname, "/reports")
  {
    if Contains(pathname, "/members") then "members"
    else if Contains(pathname, "/payment-methods") then "methods"
    else if Contains(pathname, "/reports") then "reports"
    else "members"
  }

  /** The path segment of each tab. */
  function TabSegment(tab: string): (r: Option<string>)
    ensures r.Some? <==> tab == "members" || tab == "methods" || tab == "reports"
  {
    if tab == "members" then Some("/members")
    else if tab == "methods" then Some("/payment-methods")
    else if tab == "reports" then Some("/reports")
    else None
  }

  /**
   * The tabs' `onChange`: the project's path for the chosen tab, or no
   * navigation at all for any other value.
   */
  function TabPath(tab: string, projectId: string): (r: Option<string>)
    ensures r.None? <==> TabSegment(tab).None?
    ensures r.Some? ==> StartsWith(r.value, "/admin/projects/" + projectId) && EndsWith(r.value, TabSegment(tab).value)
    ensures r.Some? ==> r.value == "/admin/projects/" + projectId + TabSegment(tab).value
  {
    match TabSegment(tab)
    case None => None
    case Some(segment) => Some("/admin/projects/" + projectId + segment)
  }

  /** The prefix of every project path. */
  const ProjectsPrefix := "/admin/projects/"

  /**
   * A tab segment: a `/` followed by a lower-case word with no other `/`,
   * that is neither `/ad…` nor `/pr…` as found in the prefix.
   */
  predicate IsTabSegment(segment: string) {
    && |segment| >= 3 && segment[0] == '/'
    && 'b' <= segment[1] <= 'z' && (segment[1] == 'p' ==> segment[2] != 'r')
    && forall j :: 1 <= j < |segment| ==> segment[j] != '/'
  }

  lemma TabSegmentsAreSegments(tab: string)
    requires TabSegment(tab).Some?
    ensures IsTabSegment(TabSegment(tab).value)
  {
    var segment := TabSegment(tab).value;
    forall j | 1 <= j < |segment| ensures segment[j] != '/' {
    }
  }

  /**
   * In `/admin/projects/<id><segment>` with a digit-only id, the only `/`
   * are at 0, 6, 15 and where the segment starts.
   */
  lemma {:induction false} SlashPositions(projectId: string, segment: string, i: nat)
    requires AllDigits(projectId) && IsTabSegment(segment)
    requires i < |ProjectsPrefix + projectId + segment|
    ensures (ProjectsPrefix + projectId + segment)[i] == '/' ==>
      i == 0 || i == 6 || i == 15 || i == 16 + |projectId|
  {
    var s := ProjectsPrefix + projectId + segment;
    if i < 16 {
      assert s[i] == ProjectsPrefix[i];
    } else if i < 16 + |projectId| {
      assert s[i] == projectId[i - 16];
    } else {
      assert s[i] == segment[i - 16 - |projectId|];
    }
  }

  /** Another tab's segment does not start at position `i` of `/admin/projects/<id><segment>`. */
  lemma {:induction false} NotAt(projectId: string, segment: string, other: string, i: nat)
    requires AllDigits(projectId) && IsTabSegment(segment) && IsTabSegment(other)
    requires segment[1] != other[1]
    requires i + |other| <= |ProjectsPrefix + projectId + segment|
    ensures !OccursAt(ProjectsPrefix + projectId + segment, other, i)
  {
    var s := ProjectsPrefix + projectId + segment;
    SlashPositions(projectId, segment, i);
    if s[i] != '/' {
      Mismatch(s, other, i, 0);
    } else if i == 0 || i == 6 {
      assert s[i + 1] == ProjectsPrefix[i + 1] && s[i + 2] == ProjectsPrefix[i + 2];
      if s[i + 1] != other[1] {
        Mismatch(s, other, i, 1);
      } else {
        Mismatch(s, other, i, 2);
      }
    } else if i == 15 {
      assert s[16] == if projectId == [] then segment[0] else projectId[0];
      Mismatch(s, other, i, 1);
    } else {
      assert s[i + 1] == segment[1];
      Mismatch(s, other, i, 1);
    }
  }

  /** Two differing characters rule out an occurrence. */
  lemma Mismatch(s: string, p: string, i: nat, j: nat)
    requires i + |p| <= |s| && j < |p| && s[i + j] != p[j]
    ensures !OccursAt(s, p, i)
  {
    assert s[i..i + |p|][j] == s[i + j];
  }

  /**
   * A tab's segment occurs in `/admin/projects/<id><segment>` with a
   * digit-only id only when it is that path's own segment.
   */
  lemma {:induction false} OnlyOwnSegment(projectId: string, segment: string, other: string)
    requires AllDigits(projectId) && IsTabSegment(segment) && IsTabSegment(other)
    requires segment == other || segment[1] != other[1]
    ensures Contains(ProjectsPrefix + projectId + segment, other) <==> other == segment
  {
    var s := ProjectsPrefix + projectId + segment;
    if other == segment {
      var k := 16 + |projectId|;
      assert s[k..] == segment;
      assert OccursAt(s, other, k);
    } else {
      forall i | 0 <= i && i + |other| <= |s| ensures !OccursAt(s, other, i) {
        NotAt(projectId, segment, other, i);
      }
    }
  }

  /**
   * Following a tab to its path and reading the tab back from that path
   * gives the same tab, for every digit-only project id.
   */
  lemma {:induction false} TabPathRoundTrip(tab: string, projectId: string)
    requires TabSegment(tab).Some? && AllDigits(projectId)
    ensures GetActiveTab(TabPath(tab, projectId).value) == tab
  {
    var segment := TabSegment(tab).value;
    assert TabPath(tab, projectId).value == ProjectsPrefix + projectId + segment;
    TabSegmentsAreSegments(tab);
    TabSegmentsAreSegments("members");
    TabSegmentsAreSegments("methods");
    TabSegmentsAreSegments("reports");
    OnlyOwnSegment(projectId, segment, "/members");
    OnlyOwnSegment(projectId, segment, "/payment-methods");
    OnlyOwnSegment(projectId, segment, "/reports");
  }

  /**
   * The page's own copy of the reports tab's `handleGenerate` body: the same
   * rule as the reports tab.
   */
  method BuildReportPayload(interval: string, year: string, month: string, weekOfMonth: string, statusScope: string)
    returns (payload: ReportsTab.ReportPayload)
    ensures payload == ReportsTab.ReportPayloadFor(interval, year, month, weekOfMonth, statusScope)
  {
    payload := ReportsTab.ReportPayload(ParseInt(year), statusScope, None, None);
    if interval == "week" || interval == "month" {
      if month != [] {
        payload := payload.(month := Some(ParseInt(month)));
      }
    }
    if interval == "week" && weekOfMonth != [] {
      payload := payload.(weekOfMonth := Some(ParseInt(weekOfMonth)));
    }
  }
}
