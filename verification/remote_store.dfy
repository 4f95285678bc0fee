/**
 * The collaborators the view models call: the signed-in user, the remote
 * database and the remote file storage, reduced to the calls issued and the
 * outcome each call reports.
 */
module RemoteStore {
  import opened Wrappers
  import opened DataModel

  /** The authenticated user: its uid and, possibly, an email address. */
  datatype User = User(uid: string, email: Option<string>)

  /** A local content reference (an image picked on the device); opaque. */
  datatype Uri = Uri(text: string)

  /** What can be written at a database path. */
  datatype Value =
    | Text(text: string)
    | Flag(flag: bool)
    | Fields(fields: map<string, string>)
    | ProfileRecord(profile: UserProfile)
    | HackathonList(hackathons: seq<Hackathon>)
    | ProjectList(projects: seq<Project>)

  /** A call issued to a collaborator, with the path it addresses. */
  datatype Call =
    | Get(path: seq<string>)
    | SetValue(path: seq<string>, value: Value)
    | PutFile(path: seq<string>, uri: Uri)
    | GetDownloadUrl(path: seq<string>)

  /** The reported outcome of an awaited call; a failure may carry a message. */
  datatype Outcome<T> = Done(value: T) | Fails(message: Option<string>)

  /** Whether issuing a call returned normally or threw before reaching the store. */
  datatype Dispatch = Dispatched | Threw(message: Option<string>)

  /** `users/<uid>`: the node holding one user's record. */
  function UserPath(uid: string): seq<string> {
    ["users", uid]
  }

  /** `profile_images/<uid>`: where a user's picture is stored. */
  function ImagePath(uid: string): seq<string> {
    ["profile_images", uid]
  }
}
