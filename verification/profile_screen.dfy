/**
 * The profile screen's controller: it holds the signed-in user's profile,
 * the edit-mode flag, the last picked image and a loading flag, and writes
 * changes through to the remote database and file storage.
 */
module ProfileScreen {
  import opened Wrappers
  import opened DataModel
  import opened RemoteStore

  /** `list.toMutableList().apply { add(x) }`: a copy of the list with x added at the end. */
  function AppendedCopy<T>(xs: seq<T>, x: T): (ys: seq<T>)
    ensures |ys| == |xs| + 1 && ys[..|xs|] == xs && ys[|xs|] == x
  {
    xs + [x]
  }

  /**
   * The calls of the image update, in the order it awaits them: upload the
   * file, ask for its download URL, write that URL into the profile. Each
   * step is issued only if the one before it succeeded, and none without a
   * signed-in user.
   */
  function ImageUpdateCalls(user: Option<User>, uri: Uri, upload: Outcome<()>, download: Outcome<string>): (cs: seq<Call>)
    ensures user.None? ==> cs == []
    ensures user.Some? ==> |cs| >= 1 && cs[0] == PutFile(ImagePath(user.value.uid), uri)
    ensures |cs| >= 2 <==> user.Some? && upload.Done?
    ensures |cs| >= 2 ==> cs[1] == GetDownloadUrl(ImagePath(user.value.uid))
    ensures |cs| == 3 <==> user.Some? && upload.Done? && download.Done?
    ensures |cs| == 3 ==> cs[2] == SetValue(UserPath(user.value.uid) + ["profileImageUrl"], Text(download.value))
    ensures |cs| <= 3
  {
    match user
    case None => []
    case Some(u) =>
      [PutFile(ImagePath(u.uid), uri)]
      + match upload
        case Fails(_) => []
        case Done(_) =>
          [GetDownloadUrl(ImagePath(u.uid))]
          + match download
            case Fails(_) => []
            case Done(url) => [SetValue(UserPath(u.uid) + ["profileImageUrl"], Text(url))]
  }

  class ProfileViewModel {
    var userProfile: UserProfile
    var isEditMode: bool
    var profileImageUri: Option<Uri>
    var isLoading: bool
    /** Every call issued to the remote database and file storage, in order. */
    var calls: seq<Call>
    /** Every value published on `isLoading`, in order, starting with the initial one. */
    ghost var loadingTrace: seq<bool>

    /** Between operations nothing is loading, and the trace ends with the current flag. */
    ghost predicate Valid()
      reads this
    {
      |loadingTrace| > 0 && loadingTrace[|loadingTrace| - 1] == isLoading && !isLoading
    }

    /** Initial state, then the fetch that `init` starts. */
    constructor (user: Option<User>, reply: Outcome<Option<UserProfile>>)
      ensures Valid()
      ensures !isEditMode && profileImageUri == None
      ensures loadingTrace == [false, true, false]
      ensures user.None? ==> userProfile == DefaultUserProfile() && calls == []
      ensures user.Some? ==> calls == [Get(UserPath(user.value.uid))]
      ensures user.Some? && reply.Done? && reply.value.Some? ==> userProfile == reply.value.value
      ensures user.Some? && reply.Done? && reply.value.None? ==>
                userProfile == UserProfile(email := user.value.email.OrElse(""))
      ensures user.Some? && reply.Fails? ==> userProfile == DefaultUserProfile()
    {
      userProfile := DefaultUserProfile();
      isEditMode, profileImageUri, isLoading := false, None, false;
      calls, loadingTrace := [], [false];
      new;
      FetchUserProfile(user, reply);
    }

    /** Publishes a new loading flag. */
    method SetLoading(b: bool)
      modifies this`isLoading, this`loadingTrace
      ensures isLoading == b && loadingTrace == old(loadingTrace) + [b]
    {
      isLoading := b;
      loadingTrace := loadingTrace + [b];
    }

    method ToggleEditMode()
      requires Valid()
      modifies this`isEditMode
      ensures Valid()
      ensures isEditMode == !old(isEditMode)
      ensures userProfile == old(userProfile) && profileImageUri == old(profileImageUri) && calls == old(calls)
    {
      isEditMode := !isEditMode;
    }

    /**
     * Uploads a picked image and records its download URL in the profile.
     * Only when all three remote steps succeed do the profile's image URL
     * and the picked uri change; loading is on for the whole operation and
     * off at the end, whatever happened.
     */
    method UpdateProfileImage(uri: Uri, user: Option<User>, upload: Outcome<()>, download: Outcome<string>, patch: Outcome<()>)
      requires Valid()
      modifies this`userProfile, this`profileImageUri, this`isLoading, this`loadingTrace, this`calls
      ensures Valid()
      ensures loadingTrace == old(loadingTrace) + [true, false]
      ensures calls == old(calls) + ImageUpdateCalls(user, uri, upload, download)
      ensures user.Some? && upload.Done? && download.Done? && patch.Done? ==>
                && userProfile == WithImageUrl(old(userProfile), download.value)
                && profileImageUri == Some(uri)
      ensures !(user.Some? && upload.Done? && download.Done? && patch.Done?) ==>
                userProfile == old(userProfile) && profileImageUri == old(profileImageUri)
      ensures isEditMode == old(isEditMode)
    {
      SetLoading(true);
      if user.Some? {
        var userId := user.value.uid;
        calls := calls + [PutFile(ImagePath(userId), uri)];
        if upload.Done? {
          calls := calls + [GetDownloadUrl(ImagePath(userId))];
          if download.Done? {
            var downloadUrl := download.value;
            calls := calls + [SetValue(UserPath(userId) + ["profileImageUrl"], Text(downloadUrl))];
            if patch.Done? {
              userProfile := WithImageUrl(userProfile, downloadUrl);
              profileImageUri := Some(uri);
            }
          }
        }
      }
      SetLoading(false);
    }

    /**
     * Writes the profile with its four editable fields replaced. Only an
     * acknowledged write changes the local profile and leaves edit mode.
     */
    method UpdateUserProfile(name: string, username: string, bio: string, college: string,
                             user: Option<User>, write: Outcome<()>)
      requires Valid()
      modifies this`userProfile, this`isEditMode, this`isLoading, this`loadingTrace, this`calls
      ensures Valid()
      ensures loadingTrace == old(loadingTrace) + [true, false]
      ensures user.None? ==> calls == old(calls)
      ensures user.Some? ==>
                calls == old(calls) + [SetValue(UserPath(user.value.uid),
                                                ProfileRecord(WithEdits(old(userProfile), name, username, bio, college)))]
      ensures user.Some? && write.Done? ==>
                userProfile == WithEdits(old(userProfile), name, username, bio, college) && !isEditMode
      ensures !(user.Some? && write.Done?) ==>
                userProfile == old(userProfile) && isEditMode == old(isEditMode)
      ensures profileImageUri == old(profileImageUri)
    {
      SetLoading(true);
      if user.Some? {
        var userId := user.value.uid;
        var updatedProfile := WithEdits(userProfile, name, username, bio, college);
        calls := calls + [SetValue(UserPath(userId), ProfileRecord(updatedProfile))];
        if write.Done? {
          userProfile := updatedProfile;
          isEditMode := false;
        }
      }
      SetLoading(false);
    }

    /**
     * Loads the user's record. A record found replaces the local profile;
     * no record gives the default profile with only the email filled in
     * from auth; a failed read, or no user, leaves the profile as it was.
     */
    method FetchUserProfile(user: Option<User>, reply: Outcome<Option<UserProfile>>)
      requires Valid()
      modifies this`userProfile, this`isLoading, this`loadingTrace, this`calls
      ensures Valid()
      ensures loadingTrace == old(loadingTrace) + [true, false]
      ensures user.None? ==> calls == old(calls) && userProfile == old(userProfile)
      ensures user.Some? ==> calls == old(calls) + [Get(UserPath(user.value.uid))]
      ensures user.Some? && reply.Done? && reply.value.Some? ==> userProfile == reply.value.value
      ensures user.Some? && reply.Done? && reply.value.None? ==>
                userProfile == UserProfile(email := user.value.email.OrElse(""))
      ensures user.Some? && reply.Fails? ==> userProfile == old(userProfile)
      ensures isEditMode == old(isEditMode) && profileImageUri == old(profileImageUri)
    {
      SetLoading(true);
      if user.Some? {
        var userId := user.value.uid;
        calls := calls + [Get(UserPath(userId))];
        if reply.Done? {
          var profile := reply.value.OrElse(UserProfile(email := user.value.email.OrElse("")));
          userProfile := profile;
        }
      }
      SetLoading(false);
    }

    /**
     * Writes the hackathon list with the new entry appended. The write is
     * not awaited and the local profile is not changed.
     */
    method AddHackathon(hackathon: Hackathon, user: Option<User>)
      requires Valid()
      modifies this`calls
      ensures Valid()
      ensures user.None? ==> calls == old(calls)
      ensures user.Some? ==>
                calls == old(calls) + [SetValue(UserPath(user.value.uid) + ["hackathons"],
                                                HackathonList(AppendedCopy(userProfile.hackathons, hackathon)))]
    {
      if user.None? {
        return;
      }
      var userId := user.value.uid;
      var currentHackathons := AppendedCopy(userProfile.hackathons, hackathon);
      calls := calls + [SetValue(UserPath(userId) + ["hackathons"], HackathonList(currentHackathons))];
    }

    /**
     * Writes the project list with the new entry appended. The write is not
     * awaited and the local profile is not changed.
     */
    method AddProject(project: Project, user: Option<User>)
      requires Valid()
      modifies this`calls
      ensures Valid()
      ensures user.None? ==> calls == old(calls)
      ensures user.Some? ==>
                calls == old(calls) + [SetValue(UserPath(user.value.uid) + ["projects"],
                                                ProjectList(AppendedCopy(userProfile.projects, project)))]
    {
      if user.None? {
        return;
      }
      var userId := user.value.uid;
      var currentProjects := AppendedCopy(userProfile.projects, project);
      calls := calls + [SetValue(UserPath(userId) + ["projects"], ProjectList(currentProjects))];
    }

    /** Writes `isPremium = true` for the user; the local profile is not changed. */
    method UpgradeToPremium(user: Option<User>)
      requires Valid()
      modifies this`calls
      ensures Valid()
      ensures user.None? ==> calls == old(calls)
      ensures user.Some? ==> calls == old(calls) + [SetValue(UserPath(user.value.uid) + ["isPremium"], Flag(true))]
    {
      if user.None? {
        return;
      }
      var userId := user.value.uid;
      calls := calls + [SetValue(UserPath(userId) + ["isPremium"], Flag(true))];
    }
  }

  /**
   * A user without a record: the profile starts as the default with the
   * email taken from auth, and an image update whose field write fails
   * leaves the image URL empty although the file was uploaded and the
   * write was issued.
   */
  method NewUserScenario(uri: Uri) returns (vm: ProfileViewModel)
    ensures vm.userProfile == DefaultUserProfile().(email := "u1@example.com")
    ensures vm.calls == [Get(UserPath("u1")), PutFile(ImagePath("u1"), uri), GetDownloadUrl(ImagePath("u1")),
                         SetValue(UserPath("u1") + ["profileImageUrl"], Text("https://files/u1"))]
    ensures vm.loadingTrace == [false, true, false, true, false] && vm.profileImageUri == None
  {
    var u := User("u1", Some("u1@example.com"));
    vm := new ProfileViewModel(Some(u), Done(None));
    vm.UpdateProfileImage(uri, Some(u), Done(()), Done("https://files/u1"), Fails(None));
  }
}
