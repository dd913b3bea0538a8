/** The template library: the built-in templates, their category counts,
    the category and search filter, and the download log
    (js/templates.js). */
module Templates {
  import opened Common
  import opened Records
  import opened Store

  datatype Template = Template(
    id: string,
    name: string,
    description: string,
    category: string,
    price: string,
    preview: string,
    file: string,
    features: seq<string>,
    tags: seq<string>)

  datatype Category = Category(id: string, name: string, count: int)

  /** The templates `loadTemplates` installs. */
  const BuiltIn: seq<Template> := [
    Template("business", "Business Website",
      "Professional business template with services section, contact form, and modern design",
      "business", "free", "https://placehold.co/800x600/3b82f6/ffffff?text=Business+Template",
      "business-template.zip",
      ["Responsive design", "Service showcase", "Contact section", "Modern navigation", "SEO optimized"],
      ["business", "professional", "services", "corporate"]),
    Template("portfolio", "Portfolio Website",
      "Showcase your work with this beautiful portfolio template",
      "portfolio", "free", "https://placehold.co/800x600/10b981/ffffff?text=Portfolio+Template",
      "portfolio-template.zip",
      ["Project gallery", "About section", "Skills showcase", "Contact form", "Mobile friendly"],
      ["portfolio", "creative", "design", "photography"]),
    Template("blog", "Blog Website",
      "Start your blog with this clean and readable template",
      "blog", "free", "https://placehold.co/800x600/8b5cf6/ffffff?text=Blog+Template",
      "blog-template.zip",
      ["Blog post layout", "Categories", "Author profile", "Comment section", "Social sharing"],
      ["blog", "writing", "content", "news"])
  ]

  function InCategory(category: string): Template -> bool
  {
    (t: Template) => t.category == category
  }

  /** How many templates are in one category. */
  function CountIn(ts: seq<Template>, category: string): (n: nat)
    ensures n <= |ts|
  {
    |Filter(ts, InCategory(category))|
  }

  /** The category buttons `loadTemplates` builds: "all" counts every
      template, three categories are counted, two are fixed at zero. */
  function CategoriesOf(ts: seq<Template>): (r: seq<Category>)
    ensures |r| == 6
    ensures r[0] == Category("all", "All Templates", |ts|)
    ensures forall i :: 1 <= i < 4 ==> r[i].count == CountIn(ts, r[i].id)
    ensures r[4].count == 0 && r[5].count == 0
    ensures forall i :: 0 <= i < 6 ==> 0 <= r[i].count <= |ts|
  {
    [ Category("all", "All Templates", |ts|),
      Category("business", "Business", CountIn(ts, "business")),
      Category("portfolio", "Portfolio", CountIn(ts, "portfolio")),
      Category("blog", "Blog", CountIn(ts, "blog")),
      Category("ecommerce", "E-commerce", 0),
      Category("landing", "Landing Page", 0) ]
  }

  predicate CountedCategory(t: Template)
  {
    t.category == "business" || t.category == "portfolio" || t.category == "blog"
  }

  /** When every template is in one of the three counted categories, their
      counts add up to the "all" count. */
  lemma {:induction false} CountsPartition(ts: seq<Template>)
    requires forall i :: 0 <= i < |ts| ==> CountedCategory(ts[i])
    ensures CountIn(ts, "business") + CountIn(ts, "portfolio") + CountIn(ts, "blog") == |ts|
  {
    if |ts| > 0 {
      CountsPartition(ts[1..]);
    }
  }

  function IsText(text: string): string -> bool
  {
    (s: string) => s == text
  }

  /** Counting a category needs only the templates' category names. */
  lemma CountByNames(ts: seq<Template>, names: seq<string>, category: string)
    requires |names| == |ts| && forall i :: 0 <= i < |ts| ==> ts[i].category == names[i]
    ensures CountIn(ts, category) == |Filter(names, IsText(category))|
  {
    FilterCountsAgree(ts, InCategory(category), names, IsText(category));
  }

  const BuiltInNames: seq<string> := ["business", "portfolio", "blog"]

  lemma BuiltInNamesMatch()
    ensures |BuiltIn| == |BuiltInNames| && forall i :: 0 <= i < |BuiltIn| ==> BuiltIn[i].category == BuiltInNames[i]
  {
  }

  lemma BuiltInNameCounts()
    ensures |Filter(BuiltInNames, IsText("business"))| == 1
    ensures |Filter(BuiltInNames, IsText("portfolio"))| == 1
    ensures |Filter(BuiltInNames, IsText("blog"))| == 1
  {
    var names := BuiltInNames;
    assert names[0][0] != names[1][0] && names[1][0] != names[2][0] && names[0][1] != names[2][1];
    assert names[1..][1..][1..] == [];
  }

  /** The built-in templates give the counts 3, 1, 1, 1, 0, 0. */
  lemma BuiltInCounts()
    ensures |BuiltIn| == 3
    ensures CountIn(BuiltIn, "business") == 1 && CountIn(BuiltIn, "portfolio") == 1 && CountIn(BuiltIn, "blog") == 1
  {
    BuiltInNamesMatch();
    BuiltInNameCounts();
    CountByNames(BuiltIn, BuiltInNames, "business");
    CountByNames(BuiltIn, BuiltInNames, "portfolio");
    CountByNames(BuiltIn, BuiltInNames, "blog");
  }

  // ------------------------------------------------------------------
  // The filter in renderTemplates
  // ------------------------------------------------------------------

  /** Some tag contains the (already lower-cased) term. */
  predicate TagHit(tags: seq<string>, term: string)
  {
    exists i :: 0 <= i < |tags| && Contains(Lower(tags[i]), term)
  }

  /** The search test, for a term already lower-cased. */
  predicate SearchHit(t: Template, term: string)
  {
    Contains(Lower(t.name), term) || Contains(Lower(t.description), term) || TagHit(t.tags, term)
  }

  function Searching(term: string): Template -> bool
  {
    (t: Template) => SearchHit(t, term)
  }

  /** `renderTemplates` as written: the category filter unless "all",
      then the search filter unless the search is empty. */
  function Visible(ts: seq<Template>, filter: string, search: string): seq<Template>
  {
    var byCategory := if filter != "all" then Filter(ts, InCategory(filter)) else ts;
    if search != "" then Filter(byCategory, Searching(Lower(search))) else byCategory
  }

  /** The one-pass test the two filters amount to. */
  predicate Shown(t: Template, filter: string, search: string)
  {
    (filter == "all" || t.category == filter) && (search == "" || SearchHit(t, Lower(search)))
  }

  function Showing(filter: string, search: string): Template -> bool
  {
    (t: Template) => Shown(t, filter, search)
  }

  /** The two filters in a row are one filter on the combined test. */
  lemma VisibleIsOneFilter(ts: seq<Template>, filter: string, search: string)
    ensures Visible(ts, filter, search) == Filter(ts, Showing(filter, search))
  {
    var term := Lower(search);
    if filter != "all" && search != "" {
      FilterCompose(ts, InCategory(filter), Searching(term));
      FilterSame(ts, Both(InCategory(filter), Searching(term)), Showing(filter, search));
    } else if filter != "all" {
      FilterSame(ts, InCategory(filter), Showing(filter, search));
    } else if search != "" {
      FilterSame(ts, Searching(term), Showing(filter, search));
    } else {
      FilterAll(ts, Showing(filter, search));
    }
  }

  /** Filters with tests that agree on every element give the same list. */
  lemma {:induction false} FilterSame(xs: seq<Template>, f: Template -> bool, g: Template -> bool)
    requires forall x :: f(x) == g(x)
    ensures Filter(xs, f) == Filter(xs, g)
  {
    if |xs| > 0 {
      FilterSame(xs[1..], f, g);
    }
  }

  /** What the library promises of its filter: an order-preserving
      sub-list, everything when nothing is chosen, only the chosen
      category, and exactly the templates the search finds. */
  lemma VisibleProperties(ts: seq<Template>, filter: string, search: string)
    ensures IsSubsequence(Visible(ts, filter, search), ts)
    ensures filter == "all" && search == "" ==> Visible(ts, filter, search) == ts
    ensures filter != "all" ==> forall t :: t in Visible(ts, filter, search) ==> t.category == filter
    ensures forall t :: t in Visible(ts, filter, search) <==> t in ts && Shown(t, filter, search)
  {
    VisibleIsOneFilter(ts, filter, search);
    var r := Filter(ts, Showing(filter, search));
    assert forall t :: t in r <==> t in ts && Showing(filter, search)(t);
    FilterIsSubsequence(ts, Showing(filter, search));
  }

  /** The search ignores case: any spelling of the same term finds the
      same templates. */
  lemma SearchIgnoresCase(ts: seq<Template>, filter: string, a: string, b: string)
    requires Lower(a) == Lower(b) && (a == "" <==> b == "")
    ensures Visible(ts, filter, a) == Visible(ts, filter, b)
  {
  }

  // ------------------------------------------------------------------
  // Lookups and the download log
  // ------------------------------------------------------------------

  function HasTemplateId(id: string): Template -> bool
  {
    (t: Template) => t.id == id
  }

  /** `templates.find(t => t.id === templateId)`. */
  function FindTemplate(ts: seq<Template>, id: string): (r: Option<Template>)
    ensures r.Some? ==> r.value in ts && r.value.id == id
    ensures r.None? <==> forall i :: 0 <= i < |ts| ==> ts[i].id != id
  {
    match FindIndex(ts, HasTemplateId(id))
    case None => None
    case Some(k) => assert HasTemplateId(id)(ts[k]); Some(ts[k])
  }

  /** One more download appended to a user's list, which is created when
      missing; every other user's list stays as it was. */
  function Tracked(log: map<int, seq<Download>>, user: int, d: Download): (r: map<int, seq<Download>>)
    ensures r.Keys == log.Keys + {user}
    ensures forall k :: k in log && k != user ==> r[k] == log[k]
    ensures |r[user]| >= 1 && r[user][|r[user]| - 1] == d
    ensures r[user][..|r[user]| - 1] == if user in log then log[user] else []
  {
    var prior := if user in log then log[user] else [];
    assert (prior + [d])[..|prior|] == prior;
    log[user := prior + [d]]
  }

  class TemplateManager {
    const store: LocalStore
    var templates: seq<Template>
    var categories: seq<Category>
    var currentFilter: string
    var currentSearch: string

    /** `new TemplateManager()` once `loadTemplates` has run. */
    constructor (store: LocalStore)
      ensures this.store == store
      ensures templates == BuiltIn && categories == CategoriesOf(BuiltIn)
      ensures currentFilter == "all" && currentSearch == ""
    {
      this.store := store;
      templates := BuiltIn;
      categories := [];
      currentFilter := "all";
      currentSearch := "";
      new;
      CountCategories();
    }

    /** The category counts of `loadTemplates`, over the loaded templates. */
    method CountCategories()
      modifies this
      ensures categories == CategoriesOf(templates)
      ensures templates == old(templates)
      ensures currentFilter == old(currentFilter) && currentSearch == old(currentSearch)
    {
      categories := CategoriesOf(templates);
    }

    /** The templates `renderTemplates` shows. */
    function Rendered(): (r: seq<Template>)
      reads this
      ensures IsSubsequence(r, templates)
      ensures forall t :: t in r <==> t in templates && Shown(t, currentFilter, currentSearch)
    {
      VisibleProperties(templates, currentFilter, currentSearch);
      Visible(templates, currentFilter, currentSearch)
    }

    /** A category button or the category drop-down. */
    method SetFilter(category: string)
      modifies this
      ensures currentFilter == category && currentSearch == old(currentSearch)
      ensures templates == old(templates) && categories == old(categories)
    {
      currentFilter := category;
    }

    /** The search box; the raw text is kept and lower-cased when filtering. */
    method SetSearch(value: string)
      modifies this
      ensures currentSearch == value && currentFilter == old(currentFilter)
      ensures templates == old(templates) && categories == old(categories)
    {
      currentSearch := value;
    }

    /** `previewTemplate`: the template the modal shows, or nothing for an
        unknown id. */
    method PreviewTemplate(id: string) returns (shown: Option<Template>)
      ensures shown == FindTemplate(templates, id)
      ensures shown.None? <==> forall i :: 0 <= i < |templates| ==> templates[i].id != id
    {
      shown := FindTemplate(templates, id);
    }

    /** `downloadTemplate`: the template whose download dialog opens. */
    method DownloadTemplate(id: string) returns (offered: Option<Template>)
      ensures offered == FindTemplate(templates, id)
      ensures offered.Some? ==> offered.value in templates && offered.value.id == id
    {
      offered := FindTemplate(templates, id);
    }

    /** `processDownload`: a ZIP download is logged, the HTML copy is not. */
    method ProcessDownload(t: Template, format: string, now: string)
      modifies store
      ensures format == "zip" ==> store.items == LoggedDownload(old(store.items), t.id, now)
      ensures format != "zip" ==> store.items == old(store.items)
    {
      if format == "zip" {
        TrackTemplateDownload(t.id, now);
      }
    }

    /** `trackTemplateDownload`. */
    method TrackTemplateDownload(templateId: string, now: string)
      modifies store
      ensures store.items == LoggedDownload(old(store.items), templateId, now)
    {
      var user := AccountIn(store.items, CurrentUserKey);
      if user.None? {
        return;
      }
      var downloads := DownloadsIn(store.items);
      store.SetItem(DownloadsKey, DownloadLog(Tracked(downloads, user.value.id, Download(templateId, now))));
    }
  }

  /** The storage after a download is logged: nothing changes without a
      current user. */
  function LoggedDownload(items: map<string, Value>, templateId: string, now: string): (r: map<string, Value>)
    ensures AccountIn(items, CurrentUserKey).None? ==> r == items
    ensures AccountIn(items, CurrentUserKey).Some? ==>
      var uid := AccountIn(items, CurrentUserKey).value.id;
      && DownloadsKey in r && r == items[DownloadsKey := r[DownloadsKey]]
      && DownloadsIn(r).Keys == DownloadsIn(items).Keys + {uid}
      && (forall k :: k in DownloadsIn(items) && k != uid ==> DownloadsIn(r)[k] == DownloadsIn(items)[k])
      && DownloadsIn(r)[uid] == (if uid in DownloadsIn(items) then DownloadsIn(items)[uid] else []) + [Download(templateId, now)]
  {
    match AccountIn(items, CurrentUserKey)
    case None => items
    case Some(u) => items[DownloadsKey := DownloadLog(Tracked(DownloadsIn(items), u.id, Download(templateId, now)))]
  }
}
