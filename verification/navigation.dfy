/**
 * The start-destination decision of the app's navigation host: the route
 * shown first depends on whether a user is signed in and, for a signed-in
 * user, on whether a lookup of `users/<uid>` found a record.
 */
module Navigation {
  import opened Wrappers
  import opened Routes
  import opened RemoteStore

  /** The `when` that picks the start destination. */
  function ResolveStart(isSignedIn: bool, isNewUser: bool): (r: AppRoute)
    ensures r == Login || r == Details || r == Home
  {
    if !isSignedIn then Login
    else if isNewUser then Details
    else Home
  }

  /** Which of the three destinations is chosen, in both directions. */
  lemma ResolveStartCases(isSignedIn: bool, isNewUser: bool)
    ensures ResolveStart(isSignedIn, isNewUser) == Login <==> !isSignedIn
    ensures ResolveStart(isSignedIn, isNewUser) == Details <==> isSignedIn && isNewUser
    ensures ResolveStart(isSignedIn, isNewUser) == Home <==> isSignedIn && !isNewUser
  {
  }

  /** What the completed lookup of a user's record reports. */
  datatype LookupResult = LookupFailed | LookupSucceeded(value: Option<Value>)

  /**
   * The navigation composable's state across compositions: the remembered
   * `isNewUser` flag, the key of the running lookup effect (present only
   * while a user is signed in) and the lookups issued so far.
   */
  class AppNavigation {
    var currentUser: Option<User>
    var isNewUser: bool
    var effectKey: Option<string>
    var calls: seq<Call>

    ghost predicate Valid()
      reads this
    {
      && (currentUser.None? ==> effectKey.None?)
      && (currentUser.Some? ==> effectKey == Some(currentUser.value.uid))
      && (forall k :: 0 <= k < |calls| ==> calls[k].Get?)
    }

    /** The destination the navigation host starts at in the current state. */
    function StartDestination(): (r: AppRoute)
      reads this
      ensures r == Login <==> currentUser.None?
      ensures currentUser.Some? ==> (r == Details <==> isNewUser)
      ensures currentUser.Some? && !isNewUser ==> r == Home
    {
      ResolveStart(currentUser.Some?, isNewUser)
    }

    /**
     * The first composition: `isNewUser` starts false, so until the lookup
     * completes a signed-in user starts at Home.
     */
    constructor (user: Option<User>)
      ensures Valid()
      ensures currentUser == user && !isNewUser
      ensures calls == if user.Some? then [Get(UserPath(user.value.uid))] else []
      ensures StartDestination() == if user.Some? then Home else Login
    {
      currentUser, isNewUser, effectKey, calls := None, false, None, [];
      new;
      Compose(user);
    }

    /**
     * One composition with the signed-in user read from auth. The lookup
     * effect runs only for a signed-in user and is keyed by the uid: it is
     * launched when it enters the composition or its key changes, and it
     * leaves the composition when no user is signed in.
     */
    method Compose(user: Option<User>)
      requires Valid()
      modifies this`currentUser, this`effectKey, this`calls
      ensures Valid()
      ensures currentUser == user && isNewUser == old(isNewUser)
      ensures user.None? ==> calls == old(calls)
      ensures user.Some? && old(effectKey) == Some(user.value.uid) ==> calls == old(calls)
      ensures user.Some? && old(effectKey) != Some(user.value.uid) ==>
                calls == old(calls) + [Get(UserPath(user.value.uid))]
    {
      currentUser := user;
      if user.Some? {
        var uid := user.value.uid;
        if effectKey != Some(uid) {
          effectKey := Some(uid);
          calls := calls + [Get(UserPath(uid))];
        }
      } else {
        effectKey := None;
      }
    }

    /**
     * The lookup's completion listener: the user is new exactly when the
     * lookup failed or found no value.
     */
    method OnLookupComplete(result: LookupResult)
      requires Valid() && calls != []
      modifies this`isNewUser
      ensures Valid()
      ensures isNewUser <==> result.LookupFailed? || result.value.None?
      ensures currentUser.Some? ==> (StartDestination() == Details <==> isNewUser)
    {
      isNewUser := !(result.LookupSucceeded? && result.value.Some?);
    }
  }
}
