/** The application shell: the login redirect, single-page navigation, the
    active navigation item, the dashboard's project list, the project step
    texts, the settings form and session expiry (js/main.js). */
module App {
  import opened Common
  import opened Records
  import opened Store
  import opened Progress

  // ------------------------------------------------------------------
  // Routing
  // ------------------------------------------------------------------

  datatype Redirect = Stay | GoTo(page: string)

  const ProtectedPages: seq<string> :=
    ["dashboard.html", "create-project.html", "project.html", "project-settings.html", "project-analytics.html"]

  predicate IsAuthPage(page: string)
  {
    page == "login.html" || page == "register.html"
  }

  /** `checkAuthentication`: signed-in visitors are sent from the login and
      registration pages to the dashboard, signed-out ones from the
      protected pages to the login page. */
  function RedirectFor(loggedIn: bool, page: string): (r: Redirect)
    ensures r == GoTo("dashboard.html") <==> loggedIn && IsAuthPage(page)
    ensures r == GoTo("login.html") <==> !loggedIn && page in ProtectedPages
    ensures r.GoTo? ==> r == GoTo("dashboard.html") || r == GoTo("login.html")
  {
    if loggedIn then
      if IsAuthPage(page) then GoTo("dashboard.html") else Stay
    else
      if page in ProtectedPages then GoTo("login.html") else Stay
  }

  /** Following a redirect never leads to another one. */
  lemma RedirectSettles(loggedIn: bool, page: string)
    requires RedirectFor(loggedIn, page).GoTo?
    ensures RedirectFor(loggedIn, RedirectFor(loggedIn, page).page) == Stay
  {
    assert "login.html" !in ProtectedPages;
  }

  /** `path.split('/').pop()`: the text after the last slash. */
  function LastSegment(path: string): (r: string)
    ensures |r| <= |path| && '/' !in r
    decreases |path|
  {
    if |path| == 0 || path[|path| - 1] == '/' then ""
    else LastSegment(path[..|path| - 1]) + [path[|path| - 1]]
  }

  /** The segment is the longest slash-free tail of the path: it ends the
      path, and a slash comes just before it unless it is the whole path. */
  lemma {:induction false} LastSegmentIsTail(path: string)
    ensures var r := LastSegment(path);
      && r == path[|path| - |r|..]
      && (|r| < |path| ==> path[|path| - |r| - 1] == '/')
    decreases |path|
  {
    if |path| > 0 && path[|path| - 1] != '/' {
      var front := path[..|path| - 1];
      LastSegmentIsTail(front);
      var r := LastSegment(front);
      assert front[|front| - |r|..] + [path[|path| - 1]] == path[|path| - |r| - 1..];
    }
  }

  /** The segment of a path ending in `/page` is the page itself. */
  lemma {:induction false} LastSegmentOfPage(dir: string, page: string)
    requires '/' !in page
    ensures LastSegment(dir + "/" + page) == page
    decreases |page|
  {
    var path := dir + "/" + page;
    if |page| > 0 {
      var front, last := page[..|page| - 1], page[|page| - 1];
      assert page == front + [last];
      assert '/' !in front && last != '/' by {
        assert forall c :: c in front ==> c in page;
        assert last in page;
      }
      assert path[..|path| - 1] == dir + "/" + front;
      assert path[|path| - 1] == last;
      LastSegmentOfPage(dir, front);
    } else {
      assert path[|path| - 1] == '/';
    }
  }

  const SPAPages: seq<string> := ["dashboard.html", "create-project.html", "resources.html", "project.html"]

  /** `path[i..]` is what follows the last '/' of `path`, or all of it
      when there is none. */
  predicate TailAfterSlash(path: string, i: int)
  {
    0 <= i <= |path| && (i == 0 || path[i - 1] == '/') && '/' !in path[i..]
  }

  /** Only one tail of a path qualifies, and it is the segment. */
  lemma LastSegmentUnique(path: string, i: int)
    requires TailAfterSlash(path, i)
    ensures path[i..] == LastSegment(path)
  {
  }

  /** `isSPAPage`: the text after the last '/' names one of the pages. */
  predicate IsSPAPage(path: string)
    ensures IsSPAPage(path) <==> exists i :: TailAfterSlash(path, i) && path[i..] in SPAPages
  {
    LastSegmentIsTail(path);
    assert TailAfterSlash(path, |path| - |LastSegment(path)|);
    forall i | TailAfterSlash(path, i)
      ensures path[i..] == LastSegment(path)
    {
      LastSegmentUnique(path, i);
    }
    LastSegment(path) in SPAPages
  }

  /** Whatever directory a page sits in, only its name decides. */
  lemma SPAPageAnyDirectory(dir: string, page: string)
    requires '/' !in page
    ensures IsSPAPage(dir + "/" + page) <==> page in SPAPages
  {
    LastSegmentOfPage(dir, page);
  }

  // ------------------------------------------------------------------
  // The dashboard
  // ------------------------------------------------------------------

  /** `loadUserProjects`: the projects carrying the current user's id. */
  function DashboardProjects(ps: seq<TrackedProject>, user: Option<User>): (r: seq<TrackedProject>)
    ensures forall p :: p in r <==> p in ps && p.userId == UserIdOf(user)
    ensures |r| <= |ps| && IsSubsequence(r, ps)
  {
    var r := Filter(ps, OwnedBy(UserIdOf(user)));
    assert forall p :: p in r ==> OwnedBy(UserIdOf(user))(p);
    FilterIsSubsequence(ps, OwnedBy(UserIdOf(user)));
    r
  }

  /** The status badge of a project card. */
  function StatusLabel(p: TrackedProject): (s: string)
    ensures s == "Completed" <==> p.progress == 100
  {
    if p.progress == 100 then "Completed" else "In Progress"
  }

  /** A project whose stored percentage is its step percentage is shown as
      completed exactly when all six steps are done. */
  lemma CompletedBadgeMeansAllSteps(p: TrackedProject)
    requires p.progress == StepPercent(p)
    ensures StatusLabel(p) == "Completed" <==> CompletedCount(p) == |StepNames|
  {
  }

  /** Marking a step keeps the badge in step with the steps. */
  lemma MarkedProjectBadge(p: TrackedProject, step: string, data: map<string, Field>, now: string)
    ensures var q := MarkStep(p, step, data, now);
      StatusLabel(q) == "Completed" <==> CompletedCount(q) == |StepNames|
  {
  }

  // ------------------------------------------------------------------
  // Project steps
  // ------------------------------------------------------------------

  /** The field each step's text is built from. */
  const KeyFields: map<string, string> := map[
    "domain" := "domainName", "hosting" := "provider", "design" := "template",
    "content" := "pages", "seo" := "keywords", "launch" := "launchDate"]

  /** The prompt shown while a step's field is unset. */
  const Prompts: map<string, string> := map[
    "domain" := "Set up your website domain name",
    "hosting" := "Configure your hosting service",
    "design" := "Choose and customize your website design",
    "content" := "Add content to your website",
    "seo" := "Optimize for search engines",
    "launch" := "Launch your website live"]

  function Get(data: map<string, Field>, key: string): Option<Field>
  {
    if key in data then Some(data[key]) else None
  }

  /** JavaScript truthiness of a possibly missing field. */
  predicate Truthy(f: Option<Field>)
  {
    match f
    case None => false
    case Some(Str(t)) => t != ""
    case Some(Num(n)) => n != 0
    case Some(Strs(_)) => true
  }

  /** A field spliced into a template string; arrays join with commas. */
  function FieldText(f: Field): string
  {
    match f
    case Str(t) => t
    case Num(n) => IntString(n)
    case Strs(items) => Join(items, ",")
  }

  /** `data.keywords.join(', ')` throws on a set value that is not a list;
      every description is built before one is picked, so this fails the
      call whatever the step. */
  predicate KeywordsThrow(data: map<string, Field>)
  {
    Truthy(Get(data, "keywords")) && !Get(data, "keywords").value.Strs?
  }

  /** The text a set field contributes to its step's description. */
  function ShownValue(step: string, f: Field): string
  {
    if step == "seo" && f.Strs? then Join(f.items, ", ") else FieldText(f)
  }

  /** The description of one of the six steps. */
  function Describe(step: string, data: map<string, Field>): string
    requires step in KeyFields && !KeywordsThrow(data)
  {
    var f := Get(data, KeyFields[step]);
    if !Truthy(f) then Prompts[step]
    else
      var v := ShownValue(step, f.value);
      if step == "domain" then "Domain: " + v
      else if step == "hosting" then "Hosting provider: " + v
      else if step == "design" then "Using template: " + v
      else if step == "content" then v + " pages created"
      else if step == "seo" then "Keywords: " + v
      else "Scheduled for: " + v
  }

  /** `getStepDescription`. */
  function GetStepDescription(step: string, data: map<string, Field>): (r: Option<string>)
    ensures r.None? <==> KeywordsThrow(data)
    ensures r.Some? && step !in KeyFields ==> r.value == "Complete this step"
    ensures r.Some? && step in KeyFields && !Truthy(Get(data, KeyFields[step])) ==> r.value == Prompts[step]
    ensures r.Some? && step in KeyFields && Truthy(Get(data, KeyFields[step])) ==>
      Contains(r.value, ShownValue(step, data[KeyFields[step]]))
  {
    if KeywordsThrow(data) then None
    else if step !in KeyFields then Some("Complete this step")
    else
      DescribeShowsValue(step, data);
      Some(Describe(step, data))
  }

  lemma DescribeShowsValue(step: string, data: map<string, Field>)
    requires step in KeyFields && !KeywordsThrow(data)
    ensures Truthy(Get(data, KeyFields[step])) ==>
      Contains(Describe(step, data), ShownValue(step, data[KeyFields[step]]))
  {
    if Truthy(Get(data, KeyFields[step])) {
      var r := Describe(step, data);
      var v := ShownValue(step, data[KeyFields[step]]);
      if step == "content" {
        ContainsPrefix(v, " pages created");
      } else {
        var prefix := r[..|r| - |v|];
        assert r == prefix + v;
        ContainsSuffix(prefix, v);
      }
    }
  }

  lemma ContainsPrefix(a: string, b: string)
    ensures Contains(a + b, a)
  {
    assert OccursAt(a + b, a, 0);
  }

  lemma ContainsSuffix(a: string, b: string)
    ensures Contains(a + b, b)
  {
    assert (a + b)[|a|..|a| + |b|] == b;
    assert OccursAt(a + b, b, |a|);
  }

  /** `getStepDefaultData`: the demo value a step is completed with; the
      launch date is supplied by the caller. */
  function GetStepDefaultData(step: string, today: string): (r: map<string, Field>)
    ensures step !in KeyFields ==> r == map[]
    ensures step in KeyFields ==> r.Keys == {KeyFields[step]}
  {
    if step == "domain" then map["domainName" := Str("mywebsite.com")]
    else if step == "hosting" then map["provider" := Str("WebsiteLaunchPad Hosting")]
    else if step == "design" then map["template" := Str("Modern Business")]
    else if step == "content" then map["pages" := Num(5)]
    else if step == "seo" then map["keywords" := Strs(["business", "website", "online"])]
    else if step == "launch" then map["launchDate" := Str(today)]
    else map[]
  }

  /** What each step says once completed with its demo value. */
  lemma DefaultDataDescriptions(today: string)
    requires today != ""
    ensures GetStepDescription("domain", GetStepDefaultData("domain", today)) == Some("Domain: " + "mywebsite.com")
    ensures GetStepDescription("hosting", GetStepDefaultData("hosting", today)) == Some("Hosting provider: " + "WebsiteLaunchPad Hosting")
    ensures GetStepDescription("design", GetStepDefaultData("design", today)) == Some("Using template: " + "Modern Business")
    ensures GetStepDescription("content", GetStepDefaultData("content", today)) == Some("5 pages created")
    ensures GetStepDescription("seo", GetStepDefaultData("seo", today)) == Some("Keywords: " + "business, website, online")
    ensures GetStepDescription("launch", GetStepDefaultData("launch", today)) == Some("Scheduled for: " + today)
  {
    DomainDefault(today);
    HostingDefault(today);
    DesignDefault(today);
    ContentDefault(today);
    SeoDefault(today);
    LaunchDefault(today);
  }

  lemma DomainDefault(today: string)
    requires today != ""
    ensures GetStepDescription("domain", GetStepDefaultData("domain", today)) == Some("Domain: " + "mywebsite.com")
  {
    var data := GetStepDefaultData("domain", today);
    assert data == map["domainName" := Str("mywebsite.com")];
    assert KeyFields["domain"] == "domainName";
    assert Get(data, "domainName") == Some(Str("mywebsite.com"));
  }

  lemma HostingDefault(today: string)
    requires today != ""
    ensures GetStepDescription("hosting", GetStepDefaultData("hosting", today)) == Some("Hosting provider: " + "WebsiteLaunchPad Hosting")
  {
    var data := GetStepDefaultData("hosting", today);
    assert data == map["provider" := Str("WebsiteLaunchPad Hosting")];
    assert KeyFields["hosting"] == "provider";
    assert Get(data, "provider") == Some(Str("WebsiteLaunchPad Hosting"));
  }

  lemma DesignDefault(today: string)
    requires today != ""
    ensures GetStepDescription("design", GetStepDefaultData("design", today)) == Some("Using template: " + "Modern Business")
  {
    var data := GetStepDefaultData("design", today);
    assert data == map["template" := Str("Modern Business")];
    assert KeyFields["design"] == "template";
    assert Get(data, "template") == Some(Str("Modern Business"));
  }

  lemma ContentDefault(today: string)
    requires today != ""
    ensures GetStepDescription("content", GetStepDefaultData("content", today)) == Some("5 pages created")
  {
    var data := GetStepDefaultData("content", today);
    assert data == map["pages" := Num(5)];
    assert KeyFields["content"] == "pages";
    assert Get(data, "pages") == Some(Num(5));
    assert IntString(5) + " pages created" == "5 pages created";
  }

  lemma SeoDefault(today: string)
    requires today != ""
    ensures GetStepDescription("seo", GetStepDefaultData("seo", today)) == Some("Keywords: " + "business, website, online")
  {
    var data := GetStepDefaultData("seo", today);
    assert data == map["keywords" := Strs(["business", "website", "online"])];
    assert KeyFields["seo"] == "keywords";
    assert Get(data, "keywords") == Some(Strs(["business", "website", "online"]));
    assert Join(["business", "website", "online"], ", ") == "business, website, online";
  }

  lemma LaunchDefault(today: string)
    requires today != ""
    ensures GetStepDescription("launch", GetStepDefaultData("launch", today)) == Some("Scheduled for: " + today)
  {
  }

  // ------------------------------------------------------------------
  // Project settings
  // ------------------------------------------------------------------

  /** `saveProjectSettings` on the stored list: an empty field keeps the
      old value; an unknown id yields nothing to save. */
  function WithSettings(ps: seq<TrackedProject>, id: int, name: string, description: string, now: string)
    : (r: Option<seq<TrackedProject>>)
    ensures r.None? <==> TrackedIndex(ps, id).None?
    ensures r.Some? ==>
      var k := TrackedIndex(ps, id).value;
      && |r.value| == |ps|
      && r.value[k] == ps[k].(name := if name != "" then name else ps[k].name,
                              description := if description != "" then description else ps[k].description,
                              lastUpdated := Some(now))
      && forall j :: 0 <= j < |ps| && j != k ==> r.value[j] == ps[j]
  {
    match TrackedIndex(ps, id)
    case None => None
    case Some(k) =>
      var p := ps[k];
      Some(ps[k := p.(name := if name != "" then name else p.name,
                      description := if description != "" then description else p.description,
                      lastUpdated := Some(now))])
  }

  /** Saving leaves every project's steps and step counts alone. */
  lemma SettingsKeepProgress(ps: seq<TrackedProject>, id: int, name: string, description: string, now: string)
    requires WithSettings(ps, id, name, description, now).Some?
    ensures var qs := WithSettings(ps, id, name, description, now).value;
      forall j :: 0 <= j < |ps| ==>
        qs[j].steps == ps[j].steps && qs[j].progress == ps[j].progress && qs[j].id == ps[j].id
  {
  }

  /** Saving the same form twice is the same as saving it once. */
  lemma SettingsIdempotent(ps: seq<TrackedProject>, id: int, name: string, description: string, now: string)
    requires WithSettings(ps, id, name, description, now).Some?
    ensures var qs := WithSettings(ps, id, name, description, now).value;
      WithSettings(qs, id, name, description, now) == Some(qs)
  {
    var qs := WithSettings(ps, id, name, description, now).value;
    var k := TrackedIndex(ps, id).value;
    assert forall j :: 0 <= j < |ps| ==> HasTrackedId(id)(ps[j]) == HasTrackedId(id)(qs[j]);
    FindIndexAgree(ps, HasTrackedId(id), qs, HasTrackedId(id));
    assert TrackedIndex(qs, id) == Some(k);
    assert qs[k := qs[k]] == qs;
  }

  // ------------------------------------------------------------------
  // Session expiry
  // ------------------------------------------------------------------

  const SessionTimeout := 3600000

  /** The test of the session poll: someone is signed in, a last activity
      is recorded and parses, and more than an hour has passed. A value
      that does not parse compares as NaN and never expires. */
  function SessionExpired(loggedIn: bool, lastActivity: Option<string>, now: int): (r: bool)
    ensures r ==> loggedIn && lastActivity.Some? && ParseInt(lastActivity.value).Some?
    ensures r ==> now > ParseInt(lastActivity.value).value + SessionTimeout
    ensures (loggedIn && lastActivity.Some? && ParseInt(lastActivity.value).Some?
             && now > ParseInt(lastActivity.value).value + SessionTimeout) ==> r
  {
    loggedIn && lastActivity.Some? && lastActivity.value != ""
    && match ParseInt(lastActivity.value)
       case None => false
       case Some(t) => now - t > SessionTimeout
  }

  /** With the activity time recorded as `Date.now().toString()`, the
      session expires exactly when more than an hour has passed. */
  lemma ExpiryAfterRecording(last: int, now: int)
    ensures SessionExpired(true, Some(IntString(last)), now) <==> now - last > SessionTimeout
  {
    ParseIntString(last);
  }

  /** Nobody signed in, no expiry; an hour to the millisecond is not
      yet expired. */
  lemma ExpiryBoundary(last: int)
    ensures !SessionExpired(false, Some(IntString(last)), last + SessionTimeout + 1)
    ensures !SessionExpired(true, Some(IntString(last)), last + SessionTimeout)
    ensures SessionExpired(true, Some(IntString(last)), last + SessionTimeout + 1)
  {
    ExpiryAfterRecording(last, last + SessionTimeout);
    ExpiryAfterRecording(last, last + SessionTimeout + 1);
  }

  class WebsiteLaunchPad {
    const store: LocalStore
    var currentUser: Option<User>
    var currentPage: string

    /** `new WebsiteLaunchPad()` on the page at `pathname`. */
    constructor (store: LocalStore, pathname: string)
      ensures this.store == store
      ensures currentUser == None && currentPage == LastSegment(pathname)
    {
      this.store := store;
      currentUser := None;
      currentPage := LastSegment(pathname);
    }

    predicate LoggedIn()
      reads this, store
    {
      CurrentUserKey in store.items
    }

    /** `checkAuthentication`: reads the signed-in user and says where to go. */
    method CheckAuthentication() returns (r: Redirect)
      modifies this
      ensures r == RedirectFor(LoggedIn(), currentPage)
      ensures currentUser == if LoggedIn() then AccountIn(store.items, CurrentUserKey) else old(currentUser)
      ensures currentPage == old(currentPage)
    {
      if CurrentUserKey in store.items {
        currentUser := AccountIn(store.items, CurrentUserKey);
      }
      r := RedirectFor(CurrentUserKey in store.items, currentPage);
    }

    /** `navigateTo`: a single-page view changes the current page in place,
        anything else is a full page load. */
    method NavigateTo(path: string) returns (reload: bool)
      modifies this
      ensures reload <==> !IsSPAPage(path)
      ensures reload ==> currentPage == old(currentPage)
      ensures !reload ==> currentPage == LastSegment(path)
      ensures currentUser == old(currentUser)
    {
      if IsSPAPage(path) {
        currentPage := LastSegment(path);
        reload := false;
      } else {
        reload := true;
      }
    }

    /** `updateActiveNav`: item `i` with link target `hrefs[i]` ends up
        active exactly when it points at the current page. */
    method UpdateActiveNav(hrefs: seq<Option<string>>, active: array<bool>)
      requires active.Length == |hrefs|
      modifies active
      ensures forall i :: 0 <= i < |hrefs| ==> active[i] == (hrefs[i] == Some(currentPage))
    {
      for i := 0 to |hrefs|
        invariant forall j :: 0 <= j < i ==> active[j] == (hrefs[j] == Some(currentPage))
      {
        active[i] := hrefs[i] == Some(currentPage);
      }
    }

    /** The projects the dashboard lists. */
    function Dashboard(): seq<TrackedProject>
      reads this, store
    {
      DashboardProjects(ProjectsIn(store.items), currentUser)
    }

    method SaveProjectSettings(projectId: int, name: string, description: string, now: string)
      modifies store
      ensures match WithSettings(ProjectsIn(old(store.items)), projectId, name, description, now)
        case None => store.items == old(store.items)
        case Some(qs) => store.items == old(store.items)[ProjectsKey := ProjectList(qs)]
    {
      var saved := WithSettings(ProjectsIn(store.items), projectId, name, description, now);
      if saved.Some? {
        store.SetItem(ProjectsKey, ProjectList(saved.value));
      }
    }

    /** `logout`: forgets the signed-in user. */
    method Logout()
      modifies store
      ensures store.items == old(store.items) - {CurrentUserKey}
      ensures !LoggedIn()
    {
      store.RemoveItem(CurrentUserKey);
    }

    /** One tick of the session poll. */
    method CheckSession(now: int) returns (expired: bool)
      modifies store
      ensures expired == SessionExpired(old(LoggedIn()), TextIn(old(store.items), LastActivityKey), now)
      ensures expired ==> store.items == old(store.items) - {CurrentUserKey}
      ensures !expired ==> store.items == old(store.items)
    {
      expired := SessionExpired(LoggedIn(), TextIn(store.items, LastActivityKey), now);
      if expired {
        Logout();
      }
    }

    /** A click records the time of the last activity. */
    method RecordActivity(now: int)
      modifies store
      ensures store.items == old(store.items)[LastActivityKey := Text(IntString(now))]
    {
      store.SetItem(LastActivityKey, Text(IntString(now)));
    }
  }
}
