/** The learning resources page: a fixed catalogue, a category and search
    filter, per-user completion flags and the newsletter check
    (js/resources.js). */
module Resources {
  import opened Common
  import opened Records
  import opened Store
  import opened Auth

  datatype Resource = Resource(
    id: int,
    title: string,
    description: string,
    category: string,
    resourceType: string,
    duration: string,
    difficulty: string,
    tags: seq<string>,
    isFree: bool,
    completed: bool)

  /** The catalogue `loadResources` installs, nothing completed yet. */
  const Catalogue: seq<Resource> := [
    Resource(1, "HTML & CSS Crash Course",
      "Learn the fundamentals of web development with HTML5 and CSS3 in this beginner-friendly course.",
      "tutorial", "video", "2h 15m", "beginner", ["html", "css", "beginner"], true, false),
    Resource(2, "JavaScript Fundamentals",
      "Master JavaScript basics including variables, functions, and DOM manipulation.",
      "tutorial", "video", "3h 30m", "beginner", ["javascript", "beginner"], true, false),
    Resource(3, "Responsive Design Mastery",
      "Learn to create websites that work perfectly on all devices and screen sizes.",
      "tutorial", "video", "2h 45m", "intermediate", ["css", "responsive", "design"], false, false),
    Resource(4, "Business Website Template",
      "Professional business template with clean design and responsive layout.",
      "template", "download", "HTML/CSS/JS", "beginner", ["business", "template", "responsive"], true, false),
    Resource(5, "CSS Flexbox & Grid Guide",
      "Complete guide to modern CSS layout with Flexbox and Grid.",
      "article", "article", "45m read", "intermediate", ["css", "layout", "flexbox", "grid"], true, false),
    Resource(6, "Git & GitHub for Beginners",
      "Learn version control with Git and collaborate using GitHub.",
      "tutorial", "video", "1h 45m", "beginner", ["git", "github", "tools"], true, false),
    Resource(7, "Web Performance Optimization",
      "Techniques to make your website load faster and perform better.",
      "article", "article", "30m read", "advanced", ["performance", "optimization", "advanced"], false, false),
    Resource(8, "CSS Cheat Sheet",
      "Quick reference guide for CSS properties and selectors.",
      "cheatsheet", "download", "PDF", "all", ["css", "reference", "cheatsheet"], true, false)
  ]

  predicate UniqueIds(rs: seq<Resource>)
  {
    forall i, j :: 0 <= i < j < |rs| ==> rs[i].id != rs[j].id
  }

  predicate NoneCompleted(rs: seq<Resource>)
  {
    forall i :: 0 <= i < |rs| ==> !rs[i].completed
  }

  /** The catalogue numbers its entries 1 to 8. */
  lemma CatalogueIds()
    ensures |Catalogue| == 8 && forall i :: 0 <= i < |Catalogue| ==> Catalogue[i].id == i + 1
  {
  }

  lemma CatalogueShape()
    ensures |Catalogue| == 8 && UniqueIds(Catalogue) && NoneCompleted(Catalogue)
  {
    CatalogueIds();
  }

  // ------------------------------------------------------------------
  // Filtering
  // ------------------------------------------------------------------

  /** The text a search query is looked for in. */
  function SearchText(r: Resource): string
  {
    Lower(r.title) + " " + Lower(r.description) + " " + Lower(Join(r.tags, " "))
  }

  /** The test inside `filterResources`. */
  predicate Matches(r: Resource, category: string, query: string)
  {
    (category == "all" || r.category == category) && (query == "" || Contains(SearchText(r), query))
  }

  function MatchesFilter(category: string, query: string): Resource -> bool
  {
    (r: Resource) => Matches(r, category, query)
  }

  /** `filterResources`: the matching resources, in catalogue order. */
  function ResourceFilter(rs: seq<Resource>, category: string, query: string): (r: seq<Resource>)
    ensures IsSubsequence(r, rs)
    ensures forall x :: x in r <==> x in rs && Matches(x, category, query)
    ensures category != "all" ==> forall x :: x in r ==> x.category == category
    ensures query != "" ==> forall x :: x in r ==> Contains(SearchText(x), query)
    ensures category == "all" && query == "" ==> r == rs
  {
    var r := Filter(rs, MatchesFilter(category, query));
    assert forall x :: x in r ==> MatchesFilter(category, query)(x);
    FilterIsSubsequence(rs, MatchesFilter(category, query));
    if category == "all" && query == "" then FilterAll(rs, MatchesFilter(category, query)); r else r
  }

  // ------------------------------------------------------------------
  // Completion flags
  // ------------------------------------------------------------------

  function HasResourceId(id: int): Resource -> bool
  {
    (r: Resource) => r.id == id
  }

  /** The position of the first resource with this id. */
  function ResourceIndex(rs: seq<Resource>, id: int): (k: Option<nat>)
    ensures k.Some? ==> k.value < |rs| && rs[k.value].id == id
    ensures k.Some? ==> forall j :: 0 <= j < k.value ==> rs[j].id != id
    ensures k.None? <==> forall j :: 0 <= j < |rs| ==> rs[j].id != id
  {
    var k := FindIndex(rs, HasResourceId(id));
    assert k.Some? ==> HasResourceId(id)(rs[k.value]);
    k
  }

  /** Two lists with the same ids, position by position, are searched alike. */
  lemma ResourceIndexSameIds(rs: seq<Resource>, ts: seq<Resource>, id: int)
    requires |rs| == |ts| && forall i :: 0 <= i < |rs| ==> rs[i].id == ts[i].id
    ensures ResourceIndex(rs, id) == ResourceIndex(ts, id)
  {
    assert forall i :: 0 <= i < |rs| ==> HasResourceId(id)(rs[i]) == HasResourceId(id)(ts[i]);
    FindIndexAgree(rs, HasResourceId(id), ts, HasResourceId(id));
  }

  /** The same list with one resource's flag changed. */
  predicate FlagChanged(before: seq<Resource>, after: seq<Resource>, k: nat, flag: bool)
  {
    && |after| == |before| && k < |before|
    && after[k] == before[k].(completed := flag)
    && forall j :: 0 <= j < |before| && j != k ==> after[j] == before[j]
  }

  /** `toggleComplete`: the first resource with this id has its flag
      flipped; an unknown id changes nothing. */
  function Toggled(rs: seq<Resource>, id: int): (r: seq<Resource>)
    ensures ResourceIndex(rs, id).None? ==> r == rs
    ensures ResourceIndex(rs, id).Some? ==>
      var k := ResourceIndex(rs, id).value; FlagChanged(rs, r, k, !rs[k].completed)
  {
    match ResourceIndex(rs, id)
    case None => rs
    case Some(k) => rs[k := rs[k].(completed := !rs[k].completed)]
  }

  /** Toggling twice restores every flag. */
  lemma ToggleTwice(rs: seq<Resource>, id: int)
    ensures Toggled(Toggled(rs, id), id) == rs
  {
    var once := Toggled(rs, id);
    ResourceIndexSameIds(rs, once, id);
    if ResourceIndex(rs, id).Some? {
      var k := ResourceIndex(rs, id).value;
      assert Toggled(once, id) == once[k := once[k].(completed := !once[k].completed)];
      assert once[k := once[k].(completed := !once[k].completed)] == rs;
    }
  }

  /** The filtered list holds the catalogue's own resource objects, so a
      flag flipped in the catalogue shows through in it. With unique ids,
      flipping the id's entry in the filtered list is that same change:
      the filtered view of the toggled catalogue. */
  lemma ToggleShowsThroughFilter(rs: seq<Resource>, category: string, query: string, id: int)
    requires UniqueIds(rs)
    ensures Toggled(ResourceFilter(rs, category, query), id) == ResourceFilter(Toggled(rs, id), category, query)
  {
    var keep := MatchesFilter(category, query);
    match ResourceIndex(rs, id)
    case None =>
      NoIdInFilter(rs, keep, id);
    case Some(k) =>
      var y := rs[k].(completed := !rs[k].completed);
      assert SearchText(y) == SearchText(rs[k]);
      FilterUpdate(rs, k, y, keep);
      if keep(rs[k]) {
        ShownAtSurvivorCount(rs, keep, k);
      } else {
        HiddenIdNotInFilter(rs, keep, k);
      }
  }

  /** An id the catalogue lacks is not in any filtered list of it. */
  lemma NoIdInFilter(rs: seq<Resource>, keep: Resource -> bool, id: int)
    requires ResourceIndex(rs, id).None?
    ensures ResourceIndex(Filter(rs, keep), id).None?
  {
    var shown := Filter(rs, keep);
    assert forall j :: 0 <= j < |shown| ==> shown[j] in rs;
  }

  /** With unique ids, a filtered-out resource's id does not occur in the filtered list. */
  lemma HiddenIdNotInFilter(rs: seq<Resource>, keep: Resource -> bool, k: nat)
    requires UniqueIds(rs) && k < |rs| && !keep(rs[k])
    ensures ResourceIndex(Filter(rs, keep), rs[k].id).None?
  {
    var shown := Filter(rs, keep);
    forall i | 0 <= i < |shown|
      ensures shown[i].id != rs[k].id
    {
      assert shown[i] in rs && keep(shown[i]);
    }
  }

  /** A shown resource that is the first with its id sits in the filtered
      list right after the survivors of the resources before it. */
  lemma ShownAtSurvivorCount(rs: seq<Resource>, keep: Resource -> bool, k: nat)
    requires k < |rs| && keep(rs[k]) && ResourceIndex(rs, rs[k].id) == Some(k)
    ensures ResourceIndex(Filter(rs, keep), rs[k].id) == Some(|Filter(rs[..k], keep)|)
  {
    var shown, before := Filter(rs, keep), Filter(rs[..k], keep);
    FilterAround(rs, k, keep);
    SpliceOne(before, rs[k], rs[k], Filter(rs[k + 1..], keep));
    assert shown[|before|] == rs[k];
    forall i | 0 <= i < |before|
      ensures shown[i].id != rs[k].id
    {
      assert shown[i] == before[i] && before[i] in rs[..k];
      var m :| 0 <= m < k && rs[..k][m] == before[i];
      assert rs[m] == shown[i];
    }
  }

  /** One step of `loadUserProgress`: the first resource with this id is
      marked completed. */
  function MarkCompleted(rs: seq<Resource>, id: int): (r: seq<Resource>)
    ensures |r| == |rs| && forall i :: 0 <= i < |rs| ==> r[i].id == rs[i].id
  {
    match ResourceIndex(rs, id)
    case None => rs
    case Some(k) => rs[k := rs[k].(completed := true)]
  }

  /** `loadUserProgress` over a list of saved ids, in order. */
  function MarkAll(rs: seq<Resource>, ids: seq<int>): (r: seq<Resource>)
    ensures |r| == |rs| && forall i :: 0 <= i < |rs| ==> r[i].id == rs[i].id
    decreases |ids|
  {
    if |ids| == 0 then rs else MarkCompleted(MarkAll(rs, ids[..|ids| - 1]), ids[|ids| - 1])
  }

  /** Some saved id leads `find` to position `i`. */
  predicate Targets(rs: seq<Resource>, ids: seq<int>, i: int)
  {
    exists j :: 0 <= j < |ids| && ResourceIndex(rs, ids[j]) == Some(i)
  }

  lemma TargetsSnoc(rs: seq<Resource>, ids: seq<int>, i: int)
    requires |ids| > 0
    ensures Targets(rs, ids, i) <==>
      Targets(rs, ids[..|ids| - 1], i) || ResourceIndex(rs, ids[|ids| - 1]) == Some(i)
  {
    var front := ids[..|ids| - 1];
    if Targets(rs, ids, i) {
      var j :| 0 <= j < |ids| && ResourceIndex(rs, ids[j]) == Some(i);
      if j < |ids| - 1 {
        assert front[j] == ids[j];
      }
    }
    if Targets(rs, front, i) {
      var j :| 0 <= j < |front| && ResourceIndex(rs, front[j]) == Some(i);
      assert ids[j] == front[j];
    }
  }

  lemma MarkCompletedAt(rs: seq<Resource>, id: int, i: int)
    requires 0 <= i < |rs|
    ensures MarkCompleted(rs, id)[i] == rs[i].(completed := rs[i].completed || ResourceIndex(rs, id) == Some(i))
  {
  }

  /** Loading sets exactly the flags some saved id points at, and changes
      nothing else. */
  lemma {:induction false} MarkAllAt(rs: seq<Resource>, ids: seq<int>, i: int)
    requires 0 <= i < |rs|
    ensures MarkAll(rs, ids)[i] == rs[i].(completed := rs[i].completed || Targets(rs, ids, i))
    decreases |ids|
  {
    if |ids| > 0 {
      var front := ids[..|ids| - 1];
      var last := ids[|ids| - 1];
      var before := MarkAll(rs, front);
      MarkAllAt(rs, front, i);
      ResourceIndexSameIds(rs, before, last);
      MarkCompletedAt(before, last, i);
      TargetsSnoc(rs, ids, i);
    }
  }

  /** Loading only ever sets flags to true. */
  lemma MarkAllOnlySets(rs: seq<Resource>, ids: seq<int>)
    ensures forall i :: 0 <= i < |rs| && rs[i].completed ==> MarkAll(rs, ids)[i].completed
  {
    forall i | 0 <= i < |rs| && rs[i].completed
      ensures MarkAll(rs, ids)[i].completed
    {
      MarkAllAt(rs, ids, i);
    }
  }

  function IsCompleted(r: Resource): bool { r.completed }

  /** `saveUserProgress`: the ids of completed resources, in list order. */
  function SavedIds(rs: seq<Resource>): (ids: seq<int>)
    ensures |ids| == |Filter(rs, IsCompleted)|
  {
    var done := Filter(rs, IsCompleted);
    seq(|done|, i requires 0 <= i < |done| => done[i].id)
  }

  /** An id is saved exactly when some completed resource carries it. */
  lemma SavedIdsMembers(rs: seq<Resource>, id: int)
    ensures id in SavedIds(rs) <==> exists i :: 0 <= i < |rs| && rs[i].completed && rs[i].id == id
  {
    var done := Filter(rs, IsCompleted);
    var ids := SavedIds(rs);
    if id in ids {
      var k :| 0 <= k < |ids| && ids[k] == id;
      assert done[k] in done;
      assert IsCompleted(done[k]);
      var i :| 0 <= i < |rs| && rs[i] == done[k];
    }
    if exists i :: 0 <= i < |rs| && rs[i].completed && rs[i].id == id {
      var i :| 0 <= i < |rs| && rs[i].completed && rs[i].id == id;
      assert IsCompleted(rs[i]);
      assert rs[i] in done;
      var k :| 0 <= k < |done| && done[k] == rs[i];
      assert ids[k] == id;
    }
  }

  /** Every flag cleared. */
  function Cleared(rs: seq<Resource>): (r: seq<Resource>)
    ensures |r| == |rs| && NoneCompleted(r)
    ensures forall i :: 0 <= i < |rs| ==> r[i] == rs[i].(completed := false)
  {
    seq(|rs|, i requires 0 <= i < |rs| => rs[i].(completed := false))
  }

  lemma SaveThenLoadAt(rs: seq<Resource>, i: int)
    requires UniqueIds(rs) && 0 <= i < |rs|
    ensures MarkAll(Cleared(rs), SavedIds(rs))[i] == rs[i]
  {
    var blank := Cleared(rs);
    var ids := SavedIds(rs);
    MarkAllAt(blank, ids, i);
    SavedIdsMembers(rs, rs[i].id);
    if rs[i].completed {
      var j :| 0 <= j < |ids| && ids[j] == rs[i].id;
      var k := ResourceIndex(blank, ids[j]);
      assert blank[i].id == ids[j];
      assert k == Some(i) by {
        assert k.Some?;
        assert forall m :: 0 <= m < |rs| && m != i ==> blank[m].id != ids[j];
      }
      assert Targets(blank, ids, i);
    } else {
      assert !Targets(blank, ids, i) by {
        forall j | 0 <= j < |ids|
          ensures ResourceIndex(blank, ids[j]) != Some(i)
        {
          SavedIdsMembers(rs, ids[j]);
          var m :| 0 <= m < |rs| && rs[m].completed && rs[m].id == ids[j];
          assert m != i;
        }
      }
    }
  }

  /** With distinct ids, loading the saved ids onto the same list with
      every flag cleared restores every flag. */
  lemma SaveThenLoad(rs: seq<Resource>)
    requires UniqueIds(rs)
    ensures MarkAll(Cleared(rs), SavedIds(rs)) == rs
  {
    forall i | 0 <= i < |rs|
      ensures MarkAll(Cleared(rs), SavedIds(rs))[i] == rs[i]
    {
      SaveThenLoadAt(rs, i);
    }
  }

  /** The percentage `updateUserProgress` shows; None is the NaN of an
      empty list. */
  function CompletionPercent(rs: seq<Resource>): (r: Option<int>)
    ensures r.None? <==> |rs| == 0
    ensures r.Some? ==> 0 <= r.value <= 100
  {
    PercentOrNaN(|Filter(rs, IsCompleted)|, |rs|)
  }

  /** The fixed catalogue always yields a number. */
  lemma CataloguePercentDefined(rs: seq<Resource>)
    requires |rs| == |Catalogue|
    ensures CompletionPercent(rs).Some?
  {
    CatalogueShape();
  }

  // ------------------------------------------------------------------
  // Labels and the newsletter form
  // ------------------------------------------------------------------

  const CategoryLabels: map<string, string> := map[
    "tutorial" := "Video Tutorial", "template" := "Template", "article" := "Article",
    "cheatsheet" := "Cheat Sheet", "tool" := "Tool"]

  function FormatCategory(category: string): (r: string)
    ensures category in CategoryLabels ==> r == CategoryLabels[category]
    ensures category !in CategoryLabels ==> r == category
  {
    Lookup(CategoryLabels, category, category)
  }

  /** `charAt(0).toUpperCase() + slice(1)`. */
  function FormatDifficulty(d: string): (r: string)
    ensures |r| == |d|
    ensures |d| > 0 ==> r[0] == UpperChar(d[0])
    ensures forall i :: 1 <= i < |d| ==> r[i] == d[i]
  {
    if |d| == 0 then "" else [UpperChar(d[0])] + d[1..]
  }

  /** The guard of `subscribeToNewsletter`. */
  predicate NewsletterEmailOk(email: string)
  {
    email != "" && '@' in email
  }

  /** The sign-up form's check is weaker than the account email check. */
  lemma ValidEmailSubscribes(email: string)
    requires IsValidEmail(email)
    ensures NewsletterEmailOk(email)
  {
    var i := FindIndex(email, IsAtSign).value;
    assert email[i] == '@';
  }

  /** `loadUserProgress` as one step: the saved ids of the session user. */
  function SessionIds(auth: AuthSystem?): seq<int>
    reads if auth == null then {} else {auth.store}
  {
    if auth == null then []
    else match auth.GetCurrentUser()
      case None => []
      case Some(u) => if u.completedResources.Some? then u.completedResources.value else []
  }

  class ResourcesManager {
    /** `window.auth`, which these pages may or may not provide. */
    const auth: AuthSystem?
    var resources: seq<Resource>
    var filteredResources: seq<Resource>
    var currentCategory: string
    var searchQuery: string

    /** `new ResourcesManager()`: the catalogue with the user's flags
        loaded; nothing is filtered until the first filter event. */
    constructor (auth: AuthSystem?)
      ensures this.auth == auth
      ensures resources == MarkAll(Catalogue, SessionIds(auth))
      ensures filteredResources == [] && currentCategory == "all" && searchQuery == ""
    {
      this.auth := auth;
      resources := Catalogue;
      filteredResources := [];
      currentCategory := "all";
      searchQuery := "";
      new;
      LoadUserProgress();
    }

    /** Marks each saved id completed, one at a time. */
    method LoadUserProgress()
      modifies this
      ensures resources == MarkAll(old(resources), SessionIds(auth))
      ensures filteredResources == old(filteredResources)
      ensures currentCategory == old(currentCategory) && searchQuery == old(searchQuery)
    {
      var ids := SessionIds(auth);
      for j := 0 to |ids|
        invariant resources == MarkAll(old(resources), ids[..j])
        invariant filteredResources == old(filteredResources)
        invariant currentCategory == old(currentCategory) && searchQuery == old(searchQuery)
      {
        assert ids[..j + 1][..j] == ids[..j];
        MarkSaved(ids[j]);
      }
      assert ids[..|ids|] == ids;
    }

    /** One step of the load: `find` the resource and set its flag. */
    method MarkSaved(id: int)
      modifies this
      ensures resources == MarkCompleted(old(resources), id)
      ensures filteredResources == old(filteredResources)
      ensures currentCategory == old(currentCategory) && searchQuery == old(searchQuery)
    {
      var k := ResourceIndex(resources, id);
      if k.Some? {
        resources := resources[k.value := resources[k.value].(completed := true)];
      }
    }

    /** Writes the completed ids into the session user only; the users
        list is not touched. */
    method SaveUserProgress()
      modifies if auth == null then {} else {auth.store}
      ensures auth == null ==> unchanged(this)
      ensures auth != null ==>
        match AccountIn(old(auth.store.items), SessionKey)
        case None => auth.store.items == old(auth.store.items)
        case Some(u) => auth.store.items == old(auth.store.items)[SessionKey :=
          Account(u.(completedResources := Some(SavedIds(resources))))]
    {
      if auth != null {
        var user := auth.GetCurrentUser();
        if user.Some? {
          auth.SetCurrentUser(user.value.(completedResources := Some(SavedIds(resources))));
        }
      }
    }

    method FilterResources()
      modifies this
      ensures filteredResources == ResourceFilter(resources, currentCategory, searchQuery)
      ensures resources == old(resources)
      ensures currentCategory == old(currentCategory) && searchQuery == old(searchQuery)
    {
      filteredResources := ResourceFilter(resources, currentCategory, searchQuery);
    }

    /** Typing in the search box: the query is kept lower-cased. */
    method SetSearch(input: string)
      modifies this
      ensures searchQuery == Lower(input) && currentCategory == old(currentCategory)
      ensures resources == old(resources)
      ensures filteredResources == ResourceFilter(resources, currentCategory, searchQuery)
    {
      searchQuery := Lower(input);
      FilterResources();
    }

    /** Clicking a category tag. */
    method SetCategory(category: string)
      modifies this
      ensures currentCategory == category && searchQuery == old(searchQuery)
      ensures resources == old(resources)
      ensures filteredResources == ResourceFilter(resources, currentCategory, searchQuery)
    {
      currentCategory := category;
      FilterResources();
    }

    /** `toggleComplete`: flips one flag and saves; an unknown id does
        nothing. The flip shows in the filtered list too, whose entries are
        the same objects. */
    method ToggleComplete(id: int)
      modifies this, if auth == null then {} else {auth.store}
      ensures resources == Toggled(old(resources), id)
      ensures currentCategory == old(currentCategory) && searchQuery == old(searchQuery)
      ensures ResourceIndex(old(resources), id).None? ==> filteredResources == old(filteredResources)
      ensures ResourceIndex(old(resources), id).Some? ==> filteredResources == Toggled(old(filteredResources), id)
      ensures UniqueIds(old(resources)) && old(filteredResources) == ResourceFilter(old(resources), currentCategory, searchQuery) ==>
        filteredResources == ResourceFilter(resources, currentCategory, searchQuery)
      ensures ResourceIndex(old(resources), id).None? && auth != null ==> auth.store.items == old(auth.store.items)
      ensures ResourceIndex(old(resources), id).Some? && auth != null ==>
        match AccountIn(old(auth.store.items), SessionKey)
        case None => auth.store.items == old(auth.store.items)
        case Some(u) => auth.store.items == old(auth.store.items)[SessionKey :=
          Account(u.(completedResources := Some(SavedIds(resources))))]
    {
      if ResourceIndex(resources, id).Some? {
        if UniqueIds(resources) {
          ToggleShowsThroughFilter(resources, currentCategory, searchQuery, id);
        }
        FlipShared(id);
        SaveUserProgress();
      }
    }

    /** The flip itself, seen through both lists that hold the resource. */
    method FlipShared(id: int)
      modifies this
      ensures resources == Toggled(old(resources), id)
      ensures filteredResources == Toggled(old(filteredResources), id)
      ensures currentCategory == old(currentCategory) && searchQuery == old(searchQuery)
    {
      resources := Toggled(resources, id);
      filteredResources := Toggled(filteredResources, id);
    }

    /** The percentage `updateUserProgress` writes into the progress labels. */
    function UserProgressPercent(): (r: Option<int>)
      reads this
      ensures r.None? <==> |resources| == 0
      ensures r.Some? ==> 0 <= r.value <= 100
      ensures |resources| > 0 && (forall i :: 0 <= i < |resources| ==> resources[i].completed) ==> r == Some(100)
      ensures |resources| > 0 && (forall i :: 0 <= i < |resources| ==> !resources[i].completed) ==> r == Some(0)
    {
      if forall i :: 0 <= i < |resources| ==> resources[i].completed then
        FilterAll(resources, IsCompleted);
        CompletionPercent(resources)
      else if forall i :: 0 <= i < |resources| ==> !resources[i].completed then
        FilterNone(resources, IsCompleted);
        CompletionPercent(resources)
      else CompletionPercent(resources)
    }
  }
}
