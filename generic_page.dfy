/**
 * The placeholder page's heading, derived from the location path:
 *   pathname.split('/').filter(p => p !== 'dashboard')
 *           .map(p => p.charAt(0).toUpperCase() + p.slice(1))
 *           .join(' - ').replace(/-/g, ' ')
 * shown as 'Page' when it comes out empty.
 */
module GenericPage {
  import opened JsString

  /** `toUpperCase` on one character, for ASCII letters. */
  function ToUpperAscii(c: char): char
  {
    if 'a' <= c <= 'z' then (c as int - 32) as char else c
  }

  /** `p.charAt(0).toUpperCase() + p.slice(1)`; "" stays "". */
  function Capitalize(p: string): (r: string)
    ensures |r| == |p|
    ensures |p| > 0 ==> r[0] == ToUpperAscii(p[0])
    ensures forall i :: 1 <= i < |p| ==> r[i] == p[i]
  {
    if |p| == 0 then "" else [ToUpperAscii(p[0])] + p[1..]
  }

  /** `.filter(p => p !== 'dashboard')` */
  function DropDashboard(parts: seq<string>): (kept: seq<string>)
    ensures |kept| <= |parts|
    ensures forall i :: 0 <= i < |kept| ==> kept[i] != "dashboard" && kept[i] in parts
  {
    if |parts| == 0 then []
    else (if parts[0] == "dashboard" then [] else [parts[0]]) + DropDashboard(parts[1..])
  }

  /** The filter keeps order: filtering a concatenation filters each half in place. */
  lemma {:induction false} DropDashboardAppend(a: seq<string>, b: seq<string>)
    ensures DropDashboard(a + b) == DropDashboard(a) + DropDashboard(b)
  {
    if |a| > 0 {
      assert (a + b)[0] == a[0];
      assert (a + b)[1..] == a[1..] + b;
      DropDashboardAppend(a[1..], b);
      var head := if a[0] == "dashboard" then [] else [a[0]];
      assert head + (DropDashboard(a[1..]) + DropDashboard(b)) == (head + DropDashboard(a[1..])) + DropDashboard(b);
    } else {
      assert a + b == b;
    }
  }

  /** Every segment other than "dashboard" survives the filter. */
  lemma {:induction false} DropDashboardKeeps(parts: seq<string>, p: string)
    requires p in parts && p != "dashboard"
    ensures p in DropDashboard(parts)
  {
    if parts[0] != p {
      DropDashboardKeeps(parts[1..], p);
    }
  }

  function CapitalizeAll(parts: seq<string>): seq<string>
  {
    seq(|parts|, i requires 0 <= i < |parts| => Capitalize(parts[i]))
  }

  /** `.replace(/-/g, ' ')`: every '-' becomes a space, nothing else changes. */
  function ReplaceDashes(s: string): (r: string)
    ensures |r| == |s|
    ensures forall i :: 0 <= i < |s| ==> r[i] == (if s[i] == '-' then ' ' else s[i])
  {
    if |s| == 0 then "" else [if s[0] == '-' then ' ' else s[0]] + ReplaceDashes(s[1..])
  }

  function ReplaceDashesAll(parts: seq<string>): seq<string>
  {
    seq(|parts|, i requires 0 <= i < |parts| => ReplaceDashes(parts[i]))
  }

  /** The heading `title`. */
  function Title(pathname: string): (title: string)
    ensures '-' !in title
  {
    ReplaceDashes(Join(CapitalizeAll(DropDashboard(Split(pathname, '/'))), " - "))
  }

  /** `{title || 'Page'}` */
  function DisplayedTitle(pathname: string): (shown: string)
    ensures shown != ""
    ensures Title(pathname) != "" ==> shown == Title(pathname)
    ensures Title(pathname) == "" ==> shown == "Page"
  {
    var title := Title(pathname);
    if title == "" then "Page" else title
  }

  lemma ReplaceDashesAppend(a: string, b: string)
    ensures ReplaceDashes(a + b) == ReplaceDashes(a) + ReplaceDashes(b)
  {
  }

  /**
   * Replacing after joining with " - " is joining the replaced segments with
   * three spaces: the separator's dash turns into a third space.
   */
  lemma {:induction false} ReplaceDashesJoin(parts: seq<string>)
    ensures ReplaceDashes(Join(parts, " - ")) == Join(ReplaceDashesAll(parts), "   ")
  {
    if |parts| >= 2 {
      ReplaceDashesJoin(parts[1..]);
      assert ReplaceDashesAll(parts)[1..] == ReplaceDashesAll(parts[1..]);
      ReplaceDashesAppend(parts[0] + " - ", Join(parts[1..], " - "));
      ReplaceDashesAppend(parts[0], " - ");
      assert ReplaceDashes(" - ") == "   ";
    }
  }

  /** The heading is the kept, capitalised, dash-free segments joined by three spaces. */
  lemma TitleJoinsWithThreeSpaces(pathname: string)
    ensures Title(pathname) == Join(ReplaceDashesAll(CapitalizeAll(DropDashboard(Split(pathname, '/')))), "   ")
  {
    ReplaceDashesJoin(CapitalizeAll(DropDashboard(Split(pathname, '/'))));
  }

  lemma SplitJobsSearch()
    ensures Split("/dashboard/jobs/search", '/') == ["", "dashboard", "jobs", "search"]
  {
    var parts := ["", "dashboard", "jobs", "search"];
    assert Join(parts[2..], "/") == "jobs/search";
    assert Join(parts, "/") == "/dashboard/jobs/search";
    SplitJoin(parts, '/');
  }

  lemma ReplaceDashesNoDash(s: string)
    requires '-' !in s
    ensures ReplaceDashes(s) == s
  {
  }

  lemma JobsSearchSegments()
    ensures ReplaceDashesAll(["", "Jobs", "Search"]) == ["", "Jobs", "Search"]
    ensures Join(["", "Jobs", "Search"], "   ") == "   Jobs   Search"
  {
    var caps := ["", "Jobs", "Search"];
    forall i | 0 <= i < |caps| ensures ReplaceDashesAll(caps)[i] == caps[i] {
      ReplaceDashesNoDash(caps[i]);
    }
    assert Join(caps[1..], "   ") == "Jobs   Search";
  }

  lemma JoinJobsSearch()
    ensures ReplaceDashes(Join(["", "Jobs", "Search"], " - ")) == "   Jobs   Search"
  {
    ReplaceDashesJoin(["", "Jobs", "Search"]);
    JobsSearchSegments();
  }

  lemma KeepJobsSearch()
    ensures DropDashboard(["", "dashboard", "jobs", "search"]) == ["", "jobs", "search"]
    ensures CapitalizeAll(["", "jobs", "search"]) == ["", "Jobs", "Search"]
  {
    assert Capitalize("jobs") == "Jobs";
    assert Capitalize("search") == "Search";
  }

  /** "/dashboard/jobs/search" gives "   Jobs   Search" (the leading empty segment adds a separator), not "Job Search". */
  lemma JobsSearchExample()
    ensures Title("/dashboard/jobs/search") == "   Jobs   Search"
  {
    SplitJobsSearch();
    KeepJobsSearch();
    JoinJobsSearch();
  }

  /** "/dashboard" leaves one empty segment, so the heading is empty and 'Page' is shown. */
  lemma DashboardShowsPage()
    ensures Title("/dashboard") == ""
    ensures DisplayedTitle("/dashboard") == "Page"
  {
    var parts := ["", "dashboard"];
    assert Join(parts, "/") == "/dashboard";
    SplitJoin(parts, '/');
    assert DropDashboard(parts) == [""];
  }
}
