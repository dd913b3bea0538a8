/** Browser local storage, holding typed values under string keys. */
module Store {
  import opened Common
  import opened Records

  /** What a key can hold, one alternative per kind of record stored. */
  datatype Value =
    | UserList(users: seq<User>)
    | Account(user: User)
    | ProjectList(projects: seq<TrackedProject>)
    | DownloadLog(log: map<int, seq<Download>>)
    | Draft(data: WizardData)
    | Text(text: string)

  // The account directory and the project registry.
  const UsersKey := "websiteLaunchpad_users"
  const SessionKey := "websiteLaunchpad_currentUser"
  // The progress views, the dashboard and the template library.
  const ProjectsKey := "projects"
  const CurrentUserKey := "currentUser"
  const DownloadsKey := "templateDownloads"
  const LastActivityKey := "lastActivity"
  // The project creation wizard.
  const DraftKey := "wizardProjectData"

  /** `localStorage`: `setItem` and `removeItem` over a dictionary. */
  class LocalStore {
    var items: map<string, Value>

    constructor (initial: map<string, Value>)
      ensures items == initial
    {
      items := initial;
    }

    method SetItem(key: string, v: Value)
      modifies this
      ensures items == old(items)[key := v]
    {
      items := items[key := v];
    }

    method RemoveItem(key: string)
      modifies this
      ensures items == old(items) - {key}
    {
      items := items - {key};
    }
  }

  /** The users list, or the empty list when the key holds none. */
  function UsersIn(items: map<string, Value>): seq<User>
  {
    if UsersKey in items && items[UsersKey].UserList? then items[UsersKey].users else []
  }

  /** The account stored under `key`, or None (JavaScript's `null`). */
  function AccountIn(items: map<string, Value>, key: string): Option<User>
  {
    if key in items && items[key].Account? then Some(items[key].user) else None
  }

  /** The tracked projects, or the empty list (the source's `|| []`). */
  function ProjectsIn(items: map<string, Value>): seq<TrackedProject>
  {
    if ProjectsKey in items && items[ProjectsKey].ProjectList? then items[ProjectsKey].projects else []
  }

  /** The template download log, or the empty dictionary. */
  function DownloadsIn(items: map<string, Value>): map<int, seq<Download>>
  {
    if DownloadsKey in items && items[DownloadsKey].DownloadLog? then items[DownloadsKey].log else map[]
  }

  /** The saved wizard draft, if there is one. */
  function DraftIn(items: map<string, Value>): Option<WizardData>
  {
    if DraftKey in items && items[DraftKey].Draft? then Some(items[DraftKey].data) else None
  }

  /** The text stored under `key`, if there is some. */
  function TextIn(items: map<string, Value>, key: string): Option<string>
  {
    if key in items && items[key].Text? then Some(items[key].text) else None
  }
}
