/** The records the application keeps in browser local storage, as they
    look once their JSON has been parsed. */
module Records {
  import opened Common

  /** One checklist item of a registry project. */
  datatype Task = Task(id: int, title: string, completed: bool, category: string)

  /** The `progress` of a registry project. Creating a project stores 0; a
      task update over an empty task list divides zero by zero, and the NaN
      it computes is written to storage as JSON `null`. */
  datatype Percentage = Pct(value: int) | Null

  /** A project as the registry keeps it, inside its owner's user record. */
  datatype Project = Project(
    id: int,
    name: string,
    projectType: string,
    description: string,
    goal: string,
    technology: seq<string>,
    progress: Percentage,
    completedTasks: int,
    totalTasks: int,
    status: string,
    createdAt: string,
    lastUpdated: string,
    tasks: seq<Task>)

  /** An account in the users list. The seeded demo account has neither a
      subscription nor a list of completed resources. */
  datatype User = User(
    id: int,
    firstName: string,
    lastName: string,
    email: string,
    password: string,
    websiteGoal: string,
    createdAt: string,
    projects: seq<Project>,
    subscription: Option<string>,
    completedResources: Option<seq<int>>)

  /** A value inside a launch step's sub-record. */
  datatype Field = Str(text: string) | Num(number: int) | Strs(items: seq<string>)

  /** The sub-record a tracked project keeps under a step's name: the two
      flags the progress views read, and whatever else was saved with it. */
  datatype StepRecord = StepRecord(completed: bool, completedDate: Option<string>, fields: map<string, Field>)

  /** A project as the progress views and the dashboard keep it, under the
      `projects` key. An absent `stepsCompleted` or `progress` reads as 0
      everywhere, and an absent description as the empty string. */
  datatype TrackedProject = TrackedProject(
    id: int,
    userId: Option<int>,
    name: string,
    description: string,
    createdAt: Option<string>,
    lastUpdated: Option<string>,
    steps: map<string, StepRecord>,
    stepsCompleted: int,
    progress: int)

  /** One entry of a user's template download log. */
  datatype Download = Download(templateId: string, downloadedAt: string)

  /** The project creation wizard's form data. */
  datatype WizardData = WizardData(
    name: string,
    projectType: string,
    goal: string,
    description: string,
    technologies: seq<string>,
    template: string,
    includeDemoContent: bool)
}
