/** The project registry: each user's projects, kept inside the user
    record in the account directory (js/projects.js). */
module Projects {
  import opened Common
  import opened Records
  import opened Store
  import opened Auth

  /** The fields `createProject` reads from its argument. A missing
      technology list is None; the text fields are '' when missing. */
  datatype ProjectInput = ProjectInput(
    name: string,
    projectType: string,
    description: string,
    goal: string,
    technology: Option<seq<string>>)

  /** The fields `updateProject` spreads over a project; None leaves a field alone. */
  datatype ProjectPatch = ProjectPatch(
    id: Option<int>,
    name: Option<string>,
    projectType: Option<string>,
    description: Option<string>,
    goal: Option<string>,
    technology: Option<seq<string>>,
    progress: Option<Percentage>,
    completedTasks: Option<int>,
    totalTasks: Option<int>,
    status: Option<string>,
    createdAt: Option<string>,
    tasks: Option<seq<Task>>)

  datatype ProjectError = NotLoggedIn | MissingNameOrType | UserNotFound | ProjectNotFound

  datatype Stats = Stats(totalProjects: nat, activeProjects: nat, completedTasks: int, avgProgress: int)

  function Pick<T>(o: Option<T>, otherwise: T): T
  {
    if o.Some? then o.value else otherwise
  }

  const DefaultTechnology: seq<string> := ["html", "css"]

  /** The fixed checklist every new project starts with. */
  function DefaultTasks(projectType: string): (ts: seq<Task>)
    ensures |ts| == 10
    ensures forall i :: 0 <= i < |ts| ==> ts[i].id == i + 1 && !ts[i].completed
  {
    [ Task(1, "Define project goals", false, "planning"),
      Task(2, "Choose domain name", false, "planning"),
      Task(3, "Design homepage layout", false, "design"),
      Task(4, "Create color scheme", false, "design"),
      Task(5, "Setup HTML structure", false, "development"),
      Task(6, "Add CSS styling", false, "development"),
      Task(7, "Make responsive design", false, "development"),
      Task(8, "Test on different browsers", false, "testing"),
      Task(9, "Optimize for performance", false, "testing"),
      Task(10, "Launch website", false, "launch") ]
  }

  /** The project type does not change the checklist. */
  lemma DefaultTasksIgnoreType(a: string, b: string)
    ensures DefaultTasks(a) == DefaultTasks(b)
  {
  }

  function IsDone(t: Task): bool { t.completed }

  /** The number of completed tasks in a list. */
  function DoneCount(tasks: seq<Task>): (n: nat)
    ensures n <= |tasks|
  {
    |Filter(tasks, IsDone)|
  }

  /** The progress `updateProject` derives from a task list: the rounded
      share of completed tasks, or `null` for an empty list. */
  function TaskProgress(tasks: seq<Task>): (r: Percentage)
    ensures r.Null? <==> |tasks| == 0
    ensures r.Pct? ==> 0 <= r.value <= 100
    ensures r.Pct? && DoneCount(tasks) == 0 ==> r.value == 0
    ensures r.Pct? && DoneCount(tasks) == |tasks| ==> r.value == 100
  {
    if |tasks| == 0 then Null else Pct(Percent(DoneCount(tasks), |tasks|))
  }

  /** The counters agree with the task list they summarise. */
  predicate CountersAgree(p: Project)
  {
    p.completedTasks == DoneCount(p.tasks) && p.progress == TaskProgress(p.tasks)
  }

  /** The record `createProject` builds. */
  function NewProject(data: ProjectInput, id: int, now: string): (p: Project)
    ensures p.id == id && p.name == data.name && p.projectType == data.projectType
    ensures p.description == data.description
    ensures p.goal == (if data.goal == "" then "general" else data.goal)
    ensures p.technology == Pick(data.technology, DefaultTechnology)
    ensures p.progress == Pct(0) && p.completedTasks == 0 && p.totalTasks == 10
    ensures p.status == "planning" && p.tasks == DefaultTasks(data.projectType)
    ensures p.createdAt == now && p.lastUpdated == now
    ensures CountersAgree(p) && p.totalTasks == |p.tasks|
  {
    var tasks := DefaultTasks(data.projectType);
    FilterNone(tasks, IsDone);
    Project(id, data.name, data.projectType, data.description,
            if data.goal == "" then "general" else data.goal,
            Pick(data.technology, DefaultTechnology),
            Pct(0), 0, 10, "planning", now, now, tasks)
  }

  /** `{...project, ...updates, lastUpdated: now}`, then the counters
      recomputed when the patch carries a task list. */
  function ApplyPatch(p: Project, u: ProjectPatch, now: string): (q: Project)
    ensures q.lastUpdated == now
    ensures q.id == Pick(u.id, p.id) && q.name == Pick(u.name, p.name)
    ensures q.projectType == Pick(u.projectType, p.projectType)
    ensures q.description == Pick(u.description, p.description) && q.goal == Pick(u.goal, p.goal)
    ensures q.technology == Pick(u.technology, p.technology)
    ensures q.totalTasks == Pick(u.totalTasks, p.totalTasks) && q.status == Pick(u.status, p.status)
    ensures q.createdAt == Pick(u.createdAt, p.createdAt)
    ensures u.tasks.Some? ==> q.tasks == u.tasks.value && CountersAgree(q)
    ensures u.tasks.None? ==> q.tasks == p.tasks
    ensures u.tasks.None? ==> q.completedTasks == Pick(u.completedTasks, p.completedTasks)
    ensures u.tasks.None? ==> q.progress == Pick(u.progress, p.progress)
  {
    var merged := Project(
      Pick(u.id, p.id), Pick(u.name, p.name), Pick(u.projectType, p.projectType),
      Pick(u.description, p.description), Pick(u.goal, p.goal),
      Pick(u.technology, p.technology), Pick(u.progress, p.progress),
      Pick(u.completedTasks, p.completedTasks), Pick(u.totalTasks, p.totalTasks),
      Pick(u.status, p.status), Pick(u.createdAt, p.createdAt), now,
      Pick(u.tasks, p.tasks));
    if u.tasks.Some? then
      merged.(completedTasks := DoneCount(merged.tasks), progress := TaskProgress(merged.tasks))
    else merged
  }

  const NoChanges := ProjectPatch(None, None, None, None, None, None, None, None, None, None, None, None)

  /** An empty patch only stamps the update time. */
  lemma EmptyPatchStampsOnly(p: Project, now: string)
    ensures ApplyPatch(p, NoChanges, now) == p.(lastUpdated := now)
  {
  }

  /** A patch that touches neither the tasks nor the counters keeps them in agreement. */
  lemma PatchKeepsCountersAgreeing(p: Project, u: ProjectPatch, now: string)
    requires CountersAgree(p)
    requires u.tasks.Some? || (u.completedTasks.None? && u.progress.None?)
    ensures CountersAgree(ApplyPatch(p, u, now))
  {
  }

  function HasId(id: int): Project -> bool
  {
    (p: Project) => p.id == id
  }

  function LacksId(id: int): Project -> bool
  {
    (p: Project) => p.id != id
  }

  /** The position of the first project with this id. */
  function ProjectIndex(ps: seq<Project>, id: int): (k: Option<nat>)
    ensures k.Some? ==> k.value < |ps| && ps[k.value].id == id
    ensures k.Some? ==> forall j :: 0 <= j < k.value ==> ps[j].id != id
    ensures k.None? <==> forall j :: 0 <= j < |ps| ==> ps[j].id != id
  {
    var k := FindIndex(ps, HasId(id));
    assert k.Some? ==> HasId(id)(ps[k.value]);
    k
  }

  /** `projects.filter(p => p.id != projectId)`: removes every project
      with that id and keeps the rest in order. */
  function RemoveProject(ps: seq<Project>, id: int): (r: seq<Project>)
    ensures forall p :: p in r ==> p in ps && p.id != id
    ensures forall p :: p in ps && p.id != id ==> p in r
    ensures IsSubsequence(r, ps)
    ensures |r| < |ps| <==> exists i :: 0 <= i < |ps| && ps[i].id == id
  {
    var r := Filter(ps, LacksId(id));
    FilterShrinks(ps, LacksId(id));
    FilterIsSubsequence(ps, LacksId(id));
    assert forall p :: p in r ==> LacksId(id)(p);
    assert forall i :: 0 <= i < |ps| ==> (LacksId(id)(ps[i]) <==> ps[i].id != id);
    r
  }

  function SameUser(id: int): User -> bool
  {
    (u: User) => u.id == id
  }

  /** The position of the first account with this id. */
  function UserIndex(users: seq<User>, id: int): (k: Option<nat>)
    ensures k.Some? ==> k.value < |users| && users[k.value].id == id
    ensures k.Some? ==> forall j :: 0 <= j < k.value ==> users[j].id != id
    ensures k.None? <==> forall j :: 0 <= j < |users| ==> users[j].id != id
  {
    var k := FindIndex(users, SameUser(id));
    assert k.Some? ==> SameUser(id)(users[k.value]);
    k
  }

  /** The store after `updateUser(u)`: the first account with u's id is
      replaced by u and the session becomes u; with no such account the
      store is left as it was. */
  function UpdatedUsers(items: map<string, Value>, u: User): (r: map<string, Value>)
    ensures UserIndex(UsersIn(items), u.id).None? ==> r == items
    ensures var users := UsersIn(items); var k := UserIndex(users, u.id);
      k.Some? ==>
        && |UsersIn(r)| == |users|
        && UsersIn(r)[k.value] == u
        && (forall j :: 0 <= j < |users| && j != k.value ==> UsersIn(r)[j] == users[j])
        && AccountIn(r, SessionKey) == Some(u)
        && r - {UsersKey, SessionKey} == items - {UsersKey, SessionKey}
  {
    var users := UsersIn(items);
    match UserIndex(users, u.id)
    case None => items
    case Some(k) => items[UsersKey := UserList(users[k := u])][SessionKey := Account(u)]
  }

  function ProgressNumber(p: Percentage): int
  {
    if p.Pct? then p.value else 0
  }

  /** `p.progress < 100`, where `null` compares as 0. */
  function IsActive(p: Project): bool { ProgressNumber(p.progress) < 100 }

  function SumProgress(ps: seq<Project>): int
  {
    if |ps| == 0 then 0 else SumProgress(ps[..|ps| - 1]) + ProgressNumber(ps[|ps| - 1].progress)
  }

  function SumCompletedTasks(ps: seq<Project>): int
  {
    if |ps| == 0 then 0 else SumCompletedTasks(ps[..|ps| - 1]) + ps[|ps| - 1].completedTasks
  }

  predicate ProgressInRange(ps: seq<Project>)
  {
    forall i :: 0 <= i < |ps| ==> 0 <= ProgressNumber(ps[i].progress) <= 100
  }

  lemma {:induction false} SumProgressBounds(ps: seq<Project>)
    requires ProgressInRange(ps)
    ensures 0 <= SumProgress(ps) <= 100 * |ps|
  {
    if |ps| > 0 {
      SumProgressBounds(ps[..|ps| - 1]);
    }
  }

  /** `getStats` over a project list. */
  function StatsOf(ps: seq<Project>): (s: Stats)
    ensures s.totalProjects == |ps| && s.activeProjects <= s.totalProjects
    ensures s.activeProjects == |Filter(ps, IsActive)|
    ensures s.completedTasks == SumCompletedTasks(ps)
    ensures |ps| == 0 ==> s.avgProgress == 0
    ensures |ps| > 0 ==> s.avgProgress == RoundDiv(SumProgress(ps), |ps|)
    ensures ProgressInRange(ps) ==> 0 <= s.avgProgress <= 100
  {
    var avg := if |ps| > 0 then RoundDiv(SumProgress(ps), |ps|) else 0;
    if ProgressInRange(ps) && |ps| > 0 then
      SumProgressBounds(ps);
      RoundDivWithin(SumProgress(ps), |ps|, 100);
      Stats(|ps|, |Filter(ps, IsActive)|, SumCompletedTasks(ps), avg)
    else Stats(|ps|, |Filter(ps, IsActive)|, SumCompletedTasks(ps), avg)
  }

  class ProjectManager {
    /** The account directory the registry writes through. */
    const auth: AuthSystem

    constructor (auth: AuthSystem)
      ensures this.auth == auth
    {
      this.auth := auth;
    }

    /** `updateUser`: writes both the users list and the session, or nothing. */
    method UpdateUser(u: User)
      modifies auth.store
      ensures auth.store.items == UpdatedUsers(old(auth.store.items), u)
    {
      var users := auth.GetUsers();
      var k := UserIndex(users, u.id);
      if k.Some? {
        auth.store.SetItem(UsersKey, UserList(users[k.value := u]));
        auth.store.SetItem(SessionKey, Account(u));
      }
    }

    /** The logged-in user's projects, or none when nobody is logged in. */
    function GetProjects(): (r: seq<Project>)
      reads auth.store
      ensures !auth.IsLoggedIn() ==> r == []
      ensures auth.IsLoggedIn() ==> r == auth.GetCurrentUser().value.projects
    {
      match auth.GetCurrentUser()
      case None => []
      case Some(u) => u.projects
    }

    /** The first of the user's projects with this id. */
    function GetProject(id: int): (r: Option<Project>)
      reads auth.store
      ensures r.Some? ==> r.value in GetProjects() && r.value.id == id
      ensures r.None? <==> forall p :: p in GetProjects() ==> p.id != id
    {
      var ps := GetProjects();
      match ProjectIndex(ps, id)
      case None => None
      case Some(k) => Some(ps[k])
    }

    /** Refusals write nothing; otherwise the new project is appended to
        the user's list, earlier ones untouched, and the user written back. */
    method CreateProject(data: ProjectInput, id: int, now: string) returns (r: Result<Project, ProjectError>)
      modifies auth.store
      ensures var session := AccountIn(old(auth.store.items), SessionKey);
        && (session.None? ==> r == Failure(NotLoggedIn) && auth.store.items == old(auth.store.items))
        && (session.Some? && (data.name == "" || data.projectType == "") ==>
              r == Failure(MissingNameOrType) && auth.store.items == old(auth.store.items))
        && (session.Some? && data.name != "" && data.projectType != "" ==>
              r == Success(NewProject(data, id, now))
              && auth.store.items == UpdatedUsers(old(auth.store.items),
                   session.value.(projects := session.value.projects + [r.value])))
    {
      var session := auth.GetCurrentUser();
      if session.None? {
        return Failure(NotLoggedIn);
      }
      if data.name == "" || data.projectType == "" {
        return Failure(MissingNameOrType);
      }
      var user := session.value;
      var p := NewProject(data, id, now);
      UpdateUser(user.(projects := user.projects + [p]));
      r := Success(p);
    }

    /** Patches the first project with this id; no session or no such
        project writes nothing. */
    method UpdateProject(id: int, updates: ProjectPatch, now: string) returns (r: Result<Project, ProjectError>)
      modifies auth.store
      ensures var session := AccountIn(old(auth.store.items), SessionKey);
        && (session.None? ==> r == Failure(UserNotFound) && auth.store.items == old(auth.store.items))
        && (session.Some? ==>
              var ps := session.value.projects;
              match ProjectIndex(ps, id)
              case None =>
                r == Failure(ProjectNotFound) && auth.store.items == old(auth.store.items)
              case Some(k) =>
                r == Success(ApplyPatch(ps[k], updates, now))
                && auth.store.items == UpdatedUsers(old(auth.store.items),
                     session.value.(projects := ps[k := r.value])))
    {
      var session := auth.GetCurrentUser();
      if session.None? {
        return Failure(UserNotFound);
      }
      var user := session.value;
      var k := ProjectIndex(user.projects, id);
      if k.None? {
        return Failure(ProjectNotFound);
      }
      var q := ApplyPatch(user.projects[k.value], updates, now);
      UpdateUser(user.(projects := user.projects[k.value := q]));
      r := Success(q);
    }

    /** Removes every project with this id, succeeding exactly when that
        shortened the list; nothing is written otherwise. */
    method DeleteProject(id: int) returns (r: Result<(), ProjectError>)
      modifies auth.store
      ensures var session := AccountIn(old(auth.store.items), SessionKey);
        && (session.None? ==> r == Failure(UserNotFound) && auth.store.items == old(auth.store.items))
        && (session.Some? ==>
              var ps := session.value.projects;
              if exists i :: 0 <= i < |ps| && ps[i].id == id then
                r == Success(())
                && auth.store.items == UpdatedUsers(old(auth.store.items),
                     session.value.(projects := RemoveProject(ps, id)))
              else
                r == Failure(ProjectNotFound) && auth.store.items == old(auth.store.items))
    {
      var session := auth.GetCurrentUser();
      if session.None? {
        return Failure(UserNotFound);
      }
      var user := session.value;
      var kept := RemoveProject(user.projects, id);
      if |kept| < |user.projects| {
        UpdateUser(user.(projects := kept));
        r := Success(());
      } else {
        r := Failure(ProjectNotFound);
      }
    }

    /** `getStats` of the logged-in user's projects; all zero when nobody is logged in. */
    function GetStats(): (r: Stats)
      reads auth.store
      ensures r.totalProjects == |GetProjects()| && r.activeProjects <= r.totalProjects
      ensures !auth.IsLoggedIn() ==> r == Stats(0, 0, 0, 0)
      ensures ProgressInRange(GetProjects()) ==> 0 <= r.avgProgress <= 100
    {
      StatsOf(GetProjects())
    }
  }
}
