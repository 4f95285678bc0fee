/**
 * The profile records: immutable values with default field values, changed
 * only by copying with some fields replaced. Records compare structurally.
 */
module DataModel {

  /** One hackathon entry. The id has no default here: see `IdSource`. */
  datatype Hackathon = Hackathon(id: string, name: string := "", description: string := "", date: string := "")

  /** One project entry. The id has no default here: see `IdSource`. */
  datatype Project = Project(id: string, name: string := "", description: string := "", githubLink: string := "")

  datatype UserProfile = UserProfile(
    name: string := "",
    username: string := "",
    email: string := "",
    bio: string := "",
    college: string := "",
    profileImageUrl: string := "",
    hackathons: seq<Hackathon> := [],
    projects: seq<Project> := [],
    isPremium: bool := false)

  /** `UserProfile()`: the record with every field at its default. */
  function DefaultUserProfile(): (p: UserProfile)
    ensures p.name == "" && p.username == "" && p.email == "" && p.bio == "" && p.college == ""
    ensures p.profileImageUrl == "" && p.hackathons == [] && p.projects == [] && !p.isPremium
  {
    UserProfile()
  }

  /** `p.copy(name = ..., username = ..., bio = ..., college = ...)`. */
  function WithEdits(p: UserProfile, name: string, username: string, bio: string, college: string): (q: UserProfile)
    ensures q.name == name && q.username == username && q.bio == bio && q.college == college
    ensures q.email == p.email && q.profileImageUrl == p.profileImageUrl && q.isPremium == p.isPremium
    ensures q.hackathons == p.hackathons && q.projects == p.projects
  {
    p.(name := name, username := username, bio := bio, college := college)
  }

  /** `p.copy(profileImageUrl = url)`. */
  function WithImageUrl(p: UserProfile, url: string): (q: UserProfile)
    ensures q.profileImageUrl == url
    ensures q.name == p.name && q.username == p.username && q.email == p.email && q.bio == p.bio
    ensures q.college == p.college && q.hackathons == p.hackathons && q.projects == p.projects
    ensures q.isPremium == p.isPremium
  {
    p.(profileImageUrl := url)
  }

  /**
   * Copy semantics with structural equality: a copy equals the original
   * exactly when every named field already had the given value, and of two
   * successive copies of the same fields the later one wins.
   */
  lemma WithEditsEquality(p: UserProfile, name: string, username: string, bio: string, college: string)
    ensures WithEdits(p, name, username, bio, college) == p
        <==> name == p.name && username == p.username && bio == p.bio && college == p.college
    ensures forall n, u, b, c ::
              WithEdits(WithEdits(p, n, u, b, c), name, username, bio, college)
              == WithEdits(p, name, username, bio, college)
  {
  }

  /** The same for the image URL copy. */
  lemma WithImageUrlEquality(p: UserProfile, url: string)
    ensures WithImageUrl(p, url) == p <==> url == p.profileImageUrl
    ensures forall u :: WithImageUrl(WithImageUrl(p, u), url) == WithImageUrl(p, url)
  {
  }

  /**
   * The source of `UUID.randomUUID()` ids, injected. Counting from zero, the
   * k-th id handed out has k characters, so no two ids are ever the same.
   */
  class IdSource {
    ghost var issued: set<string>
    var next: nat

    ghost predicate Valid()
      reads this
    {
      forall id :: id in issued ==> |id| < next
    }

    constructor ()
      ensures Valid() && issued == {}
    {
      issued, next := {}, 0;
    }

    method Fresh() returns (id: string)
      requires Valid()
      modifies this
      ensures Valid()
      ensures id !in old(issued) && issued == old(issued) + {id}
    {
      id := seq(next, _ => '0');
      issued, next := issued + {id}, next + 1;
    }
  }

  /** `Hackathon(name = ..., description = ..., date = ...)`, which draws a fresh id. */
  method NewHackathon(ids: IdSource, name: string := "", description: string := "", date: string := "")
    returns (h: Hackathon)
    requires ids.Valid()
    modifies ids
    ensures ids.Valid()
    ensures h.id !in old(ids.issued) && ids.issued == old(ids.issued) + {h.id}
    ensures h.name == name && h.description == description && h.date == date
  {
    var id := ids.Fresh();
    h := Hackathon(id, name, description, date);
  }

  /** `Project(name = ..., description = ..., githubLink = ...)`, which draws a fresh id. */
  method NewProject(ids: IdSource, name: string := "", description: string := "", githubLink: string := "")
    returns (p: Project)
    requires ids.Valid()
    modifies ids
    ensures ids.Valid()
    ensures p.id !in old(ids.issued) && ids.issued == old(ids.issued) + {p.id}
    ensures p.name == name && p.description == description && p.githubLink == githubLink
  {
    var id := ids.Fresh();
    p := Project(id, name, description, githubLink);
  }

  /** Two entries made one after the other from one source never share an id. */
  method TwoDefaultHackathons(ids: IdSource) returns (a: Hackathon, b: Hackathon)
    requires ids.Valid()
    modifies ids
    ensures ids.Valid()
    ensures a.id != b.id
    ensures a.name == b.name == "" && a.description == b.description == "" && a.date == b.date == ""
  {
    a := NewHackathon(ids);
    b := NewHackathon(ids);
  }
}
