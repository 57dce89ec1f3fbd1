/** The flow sidebar: which page's inputs and outputs to show for the current
    path, and which of the twenty journey steps is active and which are done. */
module FlowSidebar {
  import opened Text

  /** The pages whose inputs and outputs the sidebar describes. */
  datatype PageKind =
    Home | Login | Intake | Ba | Stakeholder | Risk | Compliance | Infosec | It | Preview | Admin | Generator

  const LoginRoute := "/login"
  const IntakeRoute := "/intake"
  const BaRoute := "/role/ba"
  const SmeRoute := "/role/sme"
  const RiskRoute := "/role/risk"
  const ComplianceRoute := "/role/compliance"
  const InfosecRoute := "/role/infosec"
  const ItRoute := "/role/it"
  const RoleAdminRoute := "/role/admin"
  const AdminRoute := "/admin"
  const PreviewRoute := "/preview"
  const UserManagementRoute := "/user-management"
  const GeneratorRoute := "/brd-generator"

  /** The prefix checks of `matchPage`, in the order they are made, with the page
      each one selects. The two admin prefixes tested together come one after
      the other. */
  const Rules: seq<(string, PageKind)> := [
    (LoginRoute, Login), (IntakeRoute, Intake), (BaRoute, Ba), (SmeRoute, Stakeholder),
    (RiskRoute, Risk), (ComplianceRoute, Compliance), (InfosecRoute, Infosec), (ItRoute, It),
    (RoleAdminRoute, Admin), (AdminRoute, Admin), (PreviewRoute, Preview),
    (UserManagementRoute, Admin), (GeneratorRoute, Generator)]

  /** The index of the first rule whose prefix starts `path`, or `|rules|`. */
  function FirstRule(rules: seq<(string, PageKind)>, path: string): (k: nat)
    ensures k <= |rules|
    ensures k < |rules| ==> StartsWith(path, rules[k].0)
    ensures forall j :: 0 <= j < k ==> !StartsWith(path, rules[j].0)
  {
    if rules == [] || StartsWith(path, rules[0].0) then 0 else 1 + FirstRule(rules[1..], path)
  }

  /** The page the first matching rule names, or home when none matches. */
  function FirstMatch(rules: seq<(string, PageKind)>, path: string): PageKind {
    var k := FirstRule(rules, path);
    if k < |rules| then rules[k].1 else Home
  }

  /** `matchPage`: the root path is home; otherwise the first rule whose prefix
      starts the path decides, and a path no rule matches is home too. */
  function MatchPage(path: string): (r: PageKind)
    ensures path == "/" ==> r == Home
    ensures path != "/" && FirstRule(Rules, path) < |Rules| ==> r == Rules[FirstRule(Rules, path)].1
    ensures path != "/" && FirstRule(Rules, path) == |Rules| ==> r == Home
  {
    if path == "/" then Home else FirstMatch(Rules, path)
  }

  /** Home is shown exactly for the root path and for paths no rule matches. */
  lemma MatchPageHome(path: string)
    ensures MatchPage(path) == Home <==> path == "/" || FirstRule(Rules, path) == |Rules|
  {
    if path != "/" && FirstRule(Rules, path) < |Rules| {
      var k := FirstRule(Rules, path);
      assert forall j :: 0 <= j < |Rules| ==> Rules[j].1 != Home;
    }
  }

  /** Two prefixes that differ at a position both have: no path starts with both. */
  predicate Clash(a: string, b: string) {
    exists i :: 0 <= i < |a| && i < |b| && a[i] != b[i]
  }

  lemma ClashAt(a: string, b: string, i: nat)
    requires i < |a| && i < |b| && a[i] != b[i]
    ensures Clash(a, b)
  {
  }

  /** A path starts with at most one of two clashing prefixes. */
  lemma ClashExcludes(path: string, a: string, b: string)
    requires Clash(a, b) && StartsWith(path, b)
    ensures !StartsWith(path, a)
  {
    var i :| 0 <= i < |a| && i < |b| && a[i] != b[i];
    assert path[i] == b[i];
    if |a| <= |path| {
      assert path[..|a|][i] == path[i];
    }
  }

  /** A path starting with the prefix of rule `k` gets rule `k`'s page when every
      earlier prefix clashes with it. */
  lemma FirstMatchAt(rules: seq<(string, PageKind)>, path: string, k: nat)
    requires k < |rules| && StartsWith(path, rules[k].0)
    requires forall j :: 0 <= j < k ==> Clash(rules[j].0, rules[k].0)
    ensures FirstMatch(rules, path) == rules[k].1
  {
    forall j | 0 <= j < k
      ensures !StartsWith(path, rules[j].0)
    {
      ClashExcludes(path, rules[j].0, rules[k].0);
    }
  }

  /** "/admin" clashes with every earlier prefix at its second character. */
  lemma AdminRouteClashes()
    ensures forall j :: 0 <= j < 9 ==> Clash(Rules[j].0, Rules[9].0)
  {
    forall j | 0 <= j < 9
      ensures Clash(Rules[j].0, Rules[9].0)
    {
      ClashAt(Rules[j].0, Rules[9].0, 1);
    }
  }

  /** "/role/admin" clashes with "/login" and "/intake" at its second character
      and with the other role prefixes at its seventh. */
  lemma RoleAdminRouteClashes()
    ensures forall j :: 0 <= j < 8 ==> Clash(Rules[j].0, Rules[8].0)
  {
    forall j | 0 <= j < 8
      ensures Clash(Rules[j].0, Rules[8].0)
    {
      if j < 2 {
        ClashAt(Rules[j].0, Rules[8].0, 1);
      } else {
        ClashAt(Rules[j].0, Rules[8].0, 6);
      }
    }
  }

  /** "/user-management" clashes with every earlier prefix at its second character. */
  lemma UserManagementRouteClashes()
    ensures forall j :: 0 <= j < 11 ==> Clash(Rules[j].0, Rules[11].0)
  {
    forall j | 0 <= j < 11
      ensures Clash(Rules[j].0, Rules[11].0)
    {
      ClashAt(Rules[j].0, Rules[11].0, 1);
    }
  }

  /** The "/role/admin", "/admin" and "/user-management" paths all show the admin page. */
  lemma AdminPaths(path: string)
    requires StartsWith(path, RoleAdminRoute) || StartsWith(path, AdminRoute) || StartsWith(path, UserManagementRoute)
    ensures MatchPage(path) == Admin
  {
    assert path != "/";
    if StartsWith(path, RoleAdminRoute) {
      RoleAdminRouteClashes();
      FirstMatchAt(Rules, path, 8);
    } else if StartsWith(path, AdminRoute) {
      AdminRouteClashes();
      FirstMatchAt(Rules, path, 9);
    } else {
      UserManagementRouteClashes();
      FirstMatchAt(Rules, path, 11);
    }
  }

  /** The route of each of the twenty journey steps, in the order the sidebar lists
      them; several steps share a route. */
  const FlowRoutes: seq<string> := [
    LoginRoute, IntakeRoute, IntakeRoute, BaRoute, GeneratorRoute, SmeRoute, SmeRoute, PreviewRoute,
    ItRoute, ItRoute, ItRoute, ItRoute, ItRoute, ItRoute, ItRoute, ItRoute,
    SmeRoute, ItRoute, ItRoute, PreviewRoute]

  /** `findIndex`: the least index whose route starts `path`, or -1 when none does. */
  function FindIndex(routes: seq<string>, path: string): (r: int)
    ensures -1 <= r < |routes|
    ensures r >= 0 ==> StartsWith(path, routes[r]) && forall j :: 0 <= j < r ==> !StartsWith(path, routes[j])
    ensures r == -1 <==> forall j :: 0 <= j < |routes| ==> !StartsWith(path, routes[j])
  {
    if routes == [] then -1
    else if StartsWith(path, routes[0]) then 0
    else
      var k := FindIndex(routes[1..], path);
      if k == -1 then -1 else k + 1
  }

  /** `activeIndex`: the first step whose route starts the path, and the first step
      when none does. */
  function ActiveIndex(path: string): (r: nat)
    ensures r < |FlowRoutes|
    ensures forall j :: 0 <= j < r ==> !StartsWith(path, FlowRoutes[j])
    ensures r > 0 ==> StartsWith(path, FlowRoutes[r])
  {
    var idx := FindIndex(FlowRoutes, path);
    if idx == -1 then 0 else idx
  }

  /** Which index the sidebar highlights: the least matching step, or step 0. */
  lemma ActiveIndexIsLeastMatch(path: string)
    ensures ActiveIndex(path) < |FlowRoutes|
    ensures forall j :: 0 <= j < ActiveIndex(path) ==> !StartsWith(path, FlowRoutes[j])
    ensures StartsWith(path, FlowRoutes[ActiveIndex(path)])
            || (ActiveIndex(path) == 0 && forall j :: 0 <= j < |FlowRoutes| ==> !StartsWith(path, FlowRoutes[j]))
  {
  }

  /** The index found is always the first occurrence of its route. */
  lemma FoundIsFirstOccurrence(routes: seq<string>, path: string)
    ensures var r := FindIndex(routes, path);
            r >= 0 ==> forall j :: 0 <= j < r ==> routes[j] != routes[r]
  {
  }

  /** The steps of `FlowRoutes` whose route no earlier step has. */
  lemma FirstOccurrences(i: nat)
    requires i < |FlowRoutes| && i !in {0, 1, 3, 4, 5, 7, 8}
    ensures exists j :: 0 <= j < i && FlowRoutes[j] == FlowRoutes[i]
  {
    if i == 2 {
      assert FlowRoutes[1] == FlowRoutes[i];
    } else if i == 6 || i == 16 {
      assert FlowRoutes[5] == FlowRoutes[i];
    } else if i == 19 {
      assert FlowRoutes[7] == FlowRoutes[i];
    } else {
      assert FlowRoutes[8] == FlowRoutes[i];
    }
  }

  /** Only the first step of each route can be highlighted: the root, login and
      unmatched paths highlight step 0, and the other reachable steps are
      1 (intake), 3 (BA), 4 (generator), 5 (stakeholder), 7 (preview) and 8 (IT). */
  lemma ReachableSteps(path: string)
    ensures ActiveIndex(path) in {0, 1, 3, 4, 5, 7, 8}
  {
    var idx := FindIndex(FlowRoutes, path);
    if idx >= 0 && idx !in {0, 1, 3, 4, 5, 7, 8} {
      FoundIsFirstOccurrence(FlowRoutes, path);
      FirstOccurrences(idx);
      assert false;
    }
  }

  /** The root path matches no step route, so the login step is highlighted. */
  lemma RootHighlightsLogin()
    ensures ActiveIndex("/") == 0
  {
    var r := ActiveIndex("/");
    assert |FlowRoutes[r]| > 1;
  }

  /** The way a step is drawn: highlighted, ticked off, or still ahead. */
  datatype StepState = Active | Done | Upcoming

  /** The state of each step, for the steps' `isActive` and `isDone` flags. */
  function StepStates(path: string): (r: seq<StepState>)
    ensures |r| == |FlowRoutes|
    ensures forall i :: 0 <= i < |r| ==> (r[i] == Active <==> i == ActiveIndex(path))
    ensures forall i :: 0 <= i < |r| ==> (r[i] == Done <==> i < ActiveIndex(path))
  {
    var active := ActiveIndex(path);
    seq(|FlowRoutes|, (i: int) => if i == active then Active else if i < active then Done else Upcoming)
  }

  /** Exactly one step is highlighted, every step before it is done and every step
      after it is still ahead. */
  lemma OneActiveStep(path: string)
    ensures var r := StepStates(path);
            && (exists i :: 0 <= i < |r| && r[i] == Active)
            && (forall i, j :: 0 <= i < |r| && 0 <= j < |r| && r[i] == Active && r[j] == Active ==> i == j)
            && (forall i, j :: 0 <= i < j < |r| && r[j] == Active ==> r[i] == Done)
            && (forall i, j :: 0 <= i < j < |r| && r[i] == Active ==> r[j] == Upcoming)
  {
    var r := StepStates(path);
    assert r[ActiveIndex(path)] == Active;
  }
}
