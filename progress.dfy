/** Launch-progress analytics over the tracked projects: the six launch
    steps, the seven milestones, per-user statistics and recording a step
    as done (js/progress.js). */
module Progress {
  import opened Common
  import opened Records
  import opened Store

  /** The launch steps, in the order every view lists them. */
  const StepNames: seq<string> := ["domain", "hosting", "design", "content", "seo", "launch"]

  lemma StepNamesDistinct()
    ensures |StepNames| == 6
    ensures forall i, j :: 0 <= i < j < |StepNames| ==> StepNames[i] != StepNames[j]
  {
  }

  /** `project[step] || {}`: a missing sub-record reads as an empty one. */
  function StepData(p: TrackedProject, step: string): StepRecord
  {
    StepIn(p.steps, step)
  }

  function StepIn(steps: map<string, StepRecord>, step: string): StepRecord
  {
    if step in steps then steps[step] else StepRecord(false, None, map[])
  }

  /** `project[step]?.completed`, as a test on step names. */
  function StepDone(p: TrackedProject): string -> bool
  {
    DoneIn(p.steps)
  }

  function DoneIn(steps: map<string, StepRecord>): string -> bool
  {
    (step: string) => StepIn(steps, step).completed
  }

  /** How many of the six steps are completed. */
  function CompletedCount(p: TrackedProject): (n: nat)
    ensures n <= |StepNames|
  {
    |Filter(StepNames, DoneIn(p.steps))|
  }

  /** The rounded share of completed steps. */
  function StepPercent(p: TrackedProject): (r: int)
    ensures 0 <= r <= 100
    ensures r == 100 <==> CompletedCount(p) == |StepNames|
  {
    var n := CompletedCount(p);
    FullStepPercent(n);
    Percent(n, |StepNames|)
  }

  /** With six steps, only all six round to 100 percent. */
  lemma FullStepPercent(n: int)
    requires 0 <= n <= 6
    ensures Percent(n, 6) == 100 <==> n == 6
  {
    if n <= 5 {
      MulMono(12, 99, RoundDiv(100 * n, 6) + 1);
      MulMono(12, RoundDiv(100 * n, 6), 100);
    }
  }

  datatype StepStatus = StepStatus(name: string, completed: bool, data: StepRecord)

  /** The `steps` list of a progress report. */
  function StepStatuses(p: TrackedProject): (r: seq<StepStatus>)
    ensures |r| == |StepNames|
    ensures forall i :: 0 <= i < |r| ==>
      r[i].name == StepNames[i] && r[i].completed == StepDone(p)(StepNames[i])
      && r[i].data == StepData(p, StepNames[i])
  {
    seq(|StepNames|, i requires 0 <= i < |StepNames| =>
      StepStatus(StepNames[i], StepData(p, StepNames[i]).completed, StepData(p, StepNames[i])))
  }

  /** The result of `calculateProjectProgress`; `steps` is absent for a missing project. */
  datatype ProgressReport = ProgressReport(percentage: int, completed: nat, total: nat, steps: Option<seq<StepStatus>>)

  datatype Milestone = Milestone(id: string, name: string, description: string, icon: string, completed: bool, date: Option<string>)

  function Reached(m: Milestone): bool { m.completed }

  // The six step milestones, in step order: id, name, description, icon.
  const MilestoneIds: seq<string> :=
    ["domain_setup", "hosting_setup", "design_complete", "content_added", "seo_complete", "website_launched"]
  const MilestoneNames: seq<string> :=
    ["Domain Configured", "Hosting Ready", "Design Finalized", "Content Uploaded", "SEO Optimized", "Website Launched!"]
  const MilestoneDescriptions: seq<string> :=
    [ "Successfully set up your domain", "Configured hosting for your website", "Completed website design",
      "Added all website content", "Completed SEO optimization", "Successfully launched your website" ]
  const MilestoneIcons: seq<string> :=
    ["\U{1F310}", "\U{2601}\U{FE0F}", "\U{1F3A8}", "\U{1F4DD}", "\U{1F4C8}", "\U{1F389}"]

  /** `getProjectMilestones`: the start of the project, then one
      milestone per step that mirrors the step's sub-record. */
  function ProjectMilestones(p: TrackedProject): (ms: seq<Milestone>)
    ensures |ms| == 7
    ensures ms[0].completed && ms[0].date == p.createdAt
    ensures forall k :: 0 <= k < |StepNames| ==>
      ms[k + 1].completed == DoneIn(p.steps)(StepNames[k])
      && ms[k + 1].date == StepData(p, StepNames[k]).completedDate
  {
    [Milestone("project_created", "Project Started", "Created your first project", "\U{1F680}", true, p.createdAt)]
    + seq(|StepNames|, k requires 0 <= k < |StepNames| =>
        Milestone(MilestoneIds[k], MilestoneNames[k], MilestoneDescriptions[k], MilestoneIcons[k],
                  StepData(p, StepNames[k]).completed, StepData(p, StepNames[k]).completedDate))
  }

  /** A project has reached one milestone more than it has completed steps. */
  lemma MilestonesReached(p: TrackedProject)
    ensures |Filter(ProjectMilestones(p), Reached)| == 1 + CompletedCount(p)
  {
    var ms := ProjectMilestones(p);
    assert ms == [ms[0]] + ms[1..];
    assert Filter(ms, Reached) == [ms[0]] + Filter(ms[1..], Reached);
    FilterCountsAgree(ms[1..], Reached, StepNames, DoneIn(p.steps));
  }

  function OwnedBy(userId: Option<int>): TrackedProject -> bool
  {
    (p: TrackedProject) => p.userId == userId
  }

  /** `user?.id`: the id of the current user, undefined when there is none. */
  function UserIdOf(user: Option<User>): Option<int>
  {
    if user.Some? then Some(user.value.id) else None
  }

  function IsFinished(p: TrackedProject): bool { StepPercent(p) == 100 }

  function SumPercent(ps: seq<TrackedProject>): int
  {
    if |ps| == 0 then 0 else SumPercent(ps[..|ps| - 1]) + StepPercent(ps[|ps| - 1])
  }

  function SumSteps(ps: seq<TrackedProject>): int
  {
    if |ps| == 0 then 0 else SumSteps(ps[..|ps| - 1]) + CompletedCount(ps[|ps| - 1])
  }

  lemma SumStepsPrefix(ps: seq<TrackedProject>, i: int)
    requires 0 <= i < |ps|
    ensures SumSteps(ps[..i + 1]) == SumSteps(ps[..i]) + CompletedCount(ps[i])
  {
    assert ps[..i + 1][..i] == ps[..i];
  }

  lemma SumPercentPrefix(ps: seq<TrackedProject>, i: int)
    requires 0 <= i < |ps|
    ensures SumPercent(ps[..i + 1]) == SumPercent(ps[..i]) + StepPercent(ps[i])
  {
    assert ps[..i + 1][..i] == ps[..i];
  }

  lemma {:induction false} SumPercentBounds(ps: seq<TrackedProject>)
    ensures 0 <= SumPercent(ps) <= 100 * |ps|
  {
    if |ps| > 0 {
      SumPercentBounds(ps[..|ps| - 1]);
    }
  }

  /** The count part of `getUserProgressStats`. */
  datatype UserStats = UserStats(totalProjects: nat, completedProjects: nat, inProgressProjects: int, averageProgress: int, successRate: int)

  /** What `step` in `data` does to a step's sub-record: earlier fields are
      kept, the patch's fields override them, and the step is marked done
      now. The `completed` and `completedDate` keys of the patch are
      overridden by the two flags. */
  function MarkedStep(before: StepRecord, data: map<string, Field>, now: string): (r: StepRecord)
    ensures r.completed && r.completedDate == Some(now)
    ensures r.fields.Keys == before.fields.Keys + (data.Keys - {"completed", "completedDate"})
    ensures forall k :: k in data && k != "completed" && k != "completedDate" ==> r.fields[k] == data[k]
    ensures forall k :: k in before.fields && k !in data ==> r.fields[k] == before.fields[k]
  {
    StepRecord(true, Some(now), before.fields + (data - {"completed", "completedDate"}))
  }

  /** The project once `updateProjectProgress` has recorded `step`. */
  function MarkStep(p: TrackedProject, step: string, data: map<string, Field>, now: string): (q: TrackedProject)
    ensures q.steps == p.steps[step := MarkedStep(StepData(p, step), data, now)]
    ensures q.stepsCompleted == CompletedCount(q) && q.progress == StepPercent(q)
    ensures q.lastUpdated == Some(now)
    ensures q.(steps := p.steps, stepsCompleted := p.stepsCompleted, lastUpdated := p.lastUpdated, progress := p.progress) == p
  {
    var marked := p.(steps := p.steps[step := MarkedStep(StepData(p, step), data, now)]);
    var n := CompletedCount(marked);
    marked.(stepsCompleted := n, lastUpdated := Some(now), progress := Percent(n, |StepNames|))
  }

  /** Marking a step done never un-completes another one. */
  lemma CountAfterMarking(steps: map<string, StepRecord>, step: string, rec: StepRecord)
    requires rec.completed
    ensures |Filter(StepNames, DoneIn(steps))| <= |Filter(StepNames, DoneIn(steps[step := rec]))|
  {
    FilterMono(StepNames, DoneIn(steps), DoneIn(steps[step := rec]));
  }

  /** Marking a step that was not done adds exactly one to the count. */
  lemma CountAfterMarkingNew(steps: map<string, StepRecord>, step: string, rec: StepRecord)
    requires rec.completed && step in StepNames && !DoneIn(steps)(step)
    ensures |Filter(StepNames, DoneIn(steps[step := rec]))| == |Filter(StepNames, DoneIn(steps))| + 1
  {
    var after := steps[step := rec];
    StepNamesDistinct();
    assert DoneIn(after)(step);
    forall i | 0 <= i < |StepNames| && StepNames[i] != step
      ensures DoneIn(steps)(StepNames[i]) == DoneIn(after)(StepNames[i])
    {
      assert StepIn(after, StepNames[i]) == StepIn(steps, StepNames[i]);
    }
    FilterOneMore(StepNames, step, DoneIn(steps), DoneIn(after));
  }

  /** Recording a step never lowers the count, and the step is then done. */
  lemma MarkStepMonotone(p: TrackedProject, step: string, data: map<string, Field>, now: string)
    ensures CompletedCount(p) <= MarkStep(p, step, data, now).stepsCompleted
    ensures StepDone(MarkStep(p, step, data, now))(step)
  {
    CountAfterMarking(p.steps, step, MarkedStep(StepData(p, step), data, now));
  }

  /** Updating a project whose six steps are all done leaves it at six,
      so the launch notice appears again. */
  lemma MarkStepAgainLaunches(p: TrackedProject, step: string, data: map<string, Field>, now: string)
    requires CompletedCount(p) == |StepNames|
    ensures MarkStep(p, step, data, now).stepsCompleted == |StepNames|
    ensures MarkStep(p, step, data, now).progress == 100
  {
    MarkStepMonotone(p, step, data, now);
  }

  /** Completing the one step still missing brings a project to six. */
  lemma MarkLastStepLaunches(p: TrackedProject, step: string, data: map<string, Field>, now: string)
    requires CompletedCount(p) == |StepNames| - 1
    requires step in StepNames && !StepDone(p)(step)
    ensures MarkStep(p, step, data, now).stepsCompleted == |StepNames|
  {
    CountAfterMarkingNew(p.steps, step, MarkedStep(StepData(p, step), data, now));
  }

  function HasTrackedId(id: int): TrackedProject -> bool
  {
    (p: TrackedProject) => p.id == id
  }

  /** The position of the first tracked project with this id. */
  function TrackedIndex(ps: seq<TrackedProject>, id: int): (k: Option<nat>)
    ensures k.Some? ==> k.value < |ps| && ps[k.value].id == id
    ensures k.None? <==> forall j :: 0 <= j < |ps| ==> ps[j].id != id
  {
    var k := FindIndex(ps, HasTrackedId(id));
    assert k.Some? ==> HasTrackedId(id)(ps[k.value]);
    k
  }

  /** The counts `getUserProgressStats` reports for a list of projects. */
  predicate IsStatsOf(s: UserStats, ups: seq<TrackedProject>)
  {
    && s.totalProjects == |ups|
    && s.completedProjects == |Filter(ups, IsFinished)|
    && s.inProgressProjects == s.totalProjects - s.completedProjects
    && (|ups| == 0 ==> s.averageProgress == 0 && s.successRate == 0)
    && (|ups| > 0 ==> s.averageProgress == RoundDiv(SumPercent(ups), |ups|))
    && (|ups| > 0 ==> s.successRate == Percent(s.completedProjects, |ups|))
  }

  /** Both averages are percentages. */
  lemma StatsInRange(s: UserStats, ups: seq<TrackedProject>)
    requires IsStatsOf(s, ups)
    ensures 0 <= s.averageProgress <= 100 && 0 <= s.successRate <= 100
    ensures s.completedProjects <= s.totalProjects
  {
    if |ups| > 0 {
      SumPercentBounds(ups);
      RoundDivWithin(SumPercent(ups), |ups|, 100);
    }
  }

  /** The figures computed once the counters are summed. */
  function Summary(total: nat, completed: nat, totalProgress: int): UserStats
  {
    UserStats(total, completed, total - completed,
              if total == 0 then 0 else RoundDiv(totalProgress, total),
              if total == 0 then 0 else Percent(completed, total))
  }

  /** The `forEach` of `getUserProgressStats`, over a given list of projects. */
  method StatsOver(ups: seq<TrackedProject>) returns (s: UserStats)
    ensures IsStatsOf(s, ups)
  {
    var totalProgress := 0;
    var completedProjects := 0;
    for i := 0 to |ups|
      invariant totalProgress == SumPercent(ups[..i])
      invariant completedProjects == |Filter(ups[..i], IsFinished)|
    {
      var progress := StepPercent(ups[i]);
      FilterPrefix(ups, i, IsFinished);
      SumPercentPrefix(ups, i);
      totalProgress := totalProgress + progress;
      if progress == 100 {
        completedProjects := completedProjects + 1;
      }
    }
    assert ups[..|ups|] == ups;
    s := Summary(|ups|, completedProjects, totalProgress);
  }

  /** The inner loop of the milestone tally, over one project's milestones. */
  method TallyMilestones(ms: seq<Milestone>) returns (completed: nat, pending: nat)
    ensures completed == |Filter(ms, Reached)|
    ensures completed + pending == |ms|
  {
    completed, pending := 0, 0;
    for j := 0 to |ms|
      invariant completed == |Filter(ms[..j], Reached)|
      invariant completed + pending == j
    {
      FilterSnoc(ms[..j], ms[j], Reached);
      assert ms[..j + 1] == ms[..j] + [ms[j]];
      if ms[j].completed {
        completed := completed + 1;
      } else {
        pending := pending + 1;
      }
    }
    assert ms[..|ms|] == ms;
  }

  /** The tally over a given list of projects. */
  method TallyOver(ups: seq<TrackedProject>) returns (completed: nat, pending: nat)
    ensures completed == |ups| + SumSteps(ups)
    ensures completed + pending == 7 * |ups|
  {
    completed, pending := 0, 0;
    for i := 0 to |ups|
      invariant completed == i + SumSteps(ups[..i])
      invariant completed + pending == 7 * i
    {
      SumStepsPrefix(ups, i);
      var p := ups[i];
      var c, q := TallyMilestones(ProjectMilestones(p));
      MilestonesReached(p);
      completed, pending := completed + c, pending + q;
    }
    assert ups[..|ups|] == ups;
  }

  class ProgressTracker {
    const store: LocalStore
    /** The projects and user read once, when the tracker is created. */
    var projects: seq<TrackedProject>
    var user: Option<User>

    constructor (store: LocalStore)
      ensures this.store == store
      ensures projects == ProjectsIn(store.items) && user == AccountIn(store.items, CurrentUserKey)
    {
      this.store := store;
      projects := ProjectsIn(store.items);
      user := AccountIn(store.items, CurrentUserKey);
    }

    /** The current user's projects, in stored order. */
    function UserProjects(): seq<TrackedProject>
      reads this
    {
      Filter(projects, OwnedBy(UserIdOf(user)))
    }

    /** `calculateProjectProgress`: counts the completed steps one by one. */
    method CalculateProjectProgress(project: Option<TrackedProject>) returns (r: ProgressReport)
      ensures project.None? ==> r == ProgressReport(0, 0, 0, None)
      ensures project.Some? ==>
        && r.completed == CompletedCount(project.value) <= r.total == |StepNames|
        && r.percentage == StepPercent(project.value)
        && 0 <= r.percentage <= 100
        && r.steps == Some(StepStatuses(project.value))
    {
      if project.None? {
        return ProgressReport(0, 0, 0, None);
      }
      var p := project.value;
      var completed := 0;
      for i := 0 to |StepNames|
        invariant completed == |Filter(StepNames[..i], DoneIn(p.steps))|
      {
        FilterPrefix(StepNames, i, DoneIn(p.steps));
        if StepData(p, StepNames[i]).completed {
          completed := completed + 1;
        }
      }
      assert StepNames[..|StepNames|] == StepNames;
      r := ProgressReport(Percent(completed, |StepNames|), completed, |StepNames|, Some(StepStatuses(p)));
    }

    /** The project counts of `getUserProgressStats`. */
    method GetUserProgressStats() returns (s: UserStats)
      ensures IsStatsOf(s, UserProjects())
    {
      s := StatsOver(UserProjects());
    }

    /** The milestone tally of `initMilestoneChart`: each project has
        reached its start and one milestone per completed step, and all
        seven are counted one way or the other. */
    method MilestoneTally() returns (completed: nat, pending: nat)
      ensures completed == |UserProjects()| + SumSteps(UserProjects())
      ensures completed + pending == 7 * |UserProjects()|
    {
      completed, pending := TallyOver(UserProjects());
    }


    /** `updateProjectProgress`: records `step` on the first stored project
        with this id and writes the list back; reports whether it found
        the project and whether all six steps are now done. */
    method UpdateProjectProgress(projectId: int, step: string, data: map<string, Field>, now: string)
      returns (ok: bool, launched: bool)
      modifies store
      ensures var ps := ProjectsIn(old(store.items));
        match TrackedIndex(ps, projectId)
        case None =>
          !ok && !launched && store.items == old(store.items)
        case Some(k) =>
          var q := MarkStep(ps[k], step, data, now);
          ok && launched == (q.stepsCompleted == |StepNames|)
          && store.items == old(store.items)[ProjectsKey := ProjectList(ps[k := q])]
    {
      var ps := ProjectsIn(store.items);
      var k := TrackedIndex(ps, projectId);
      if k.None? {
        return false, false;
      }
      var q := MarkStep(ps[k.value], step, data, now);
      store.SetItem(ProjectsKey, ProjectList(ps[k.value := q]));
      ok := true;
      launched := q.stepsCompleted == |StepNames|;
    }
  }
}
