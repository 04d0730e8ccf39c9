/** The page a new user gives their name on: the trimmed name is saved to the
    profile, the one-shot bypass flag is set, and the user is sent back to
    the page they came from. */
module ProfileSetup {
  import opened Common
  import opened Strings
  import opened Types
  import AuthContext
  import SessionStorage
  import ProtectedRoute

  const NameMissing := "Please enter your name."
  const SaveFailedFallback := "Failed to save profile"

  /** The field starts with the profile's name, if any. */
  function InitialName(profile: Option<UserProfile>): (r: string)
    ensures profile.Some? ==> r == profile.value.name
    ensures profile.None? ==> r == ""
  {
    if profile.Some? then profile.value.name else ""
  }

  /** `location.state?.from?.pathname || '/'`. */
  function ReturnPath(from: Option<string>): (r: string)
    ensures r != ""
    ensures Truthy(from) ==> r == from.value
    ensures !Truthy(from) ==> r == "/"
  {
    if Truthy(from) then from.value else "/"
  }

  /** The button is disabled while saving or while the name is blank. */
  predicate SubmitDisabled(loading: bool, name: string)
  {
    loading || IsBlank(name)
  }

  /** The update handleSubmit sends: the trimmed name and nothing else. */
  function NameUpdate(name: string): AuthContext.ProfilePatch
  {
    AuthContext.ProfilePatch(None, Some(Trim(name)), None, None, None)
  }

  /** A name the form accepts ends the need for setup, and is saved trimmed. */
  lemma AcceptedNameEndsSetup(user: AuthContext.AuthUser, prev: UserProfile, name: string)
    requires !IsBlank(name)
    ensures var p := AuthContext.Merge(Some(prev), NameUpdate(name));
            !AuthContext.NeedsProfileSetup(Some(user), p) && p.value.name == Trim(name)
            && Trim(p.value.name) == p.value.name
  {
    TrimTrim(name);
    BlankIffAllSpace(Trim(name));
    AuthContext.NamedProfileNeedsNoSetup(user, prev, NameUpdate(name));
  }

  /** After a successful setup the page returned to is shown, whether or not
      the route has seen the new profile yet: if it has, setup is no longer
      due; if not, the flag lets that render through. */
  lemma ReturnAfterSetupIsShown(items: map<string, string>, needsSetup: bool, pathname: string)
    ensures var flag := SessionStorage.Get(items[ProtectedRoute.SetupCompleteKey := "true"],
                                           ProtectedRoute.SetupCompleteKey);
            ProtectedRoute.Decide(false, true, needsSetup, pathname, flag).view == ProtectedRoute.Children
  {
  }

  class SetupPage {
    var name: string
    var loading: bool
    var error: Option<string>
    /** Where the user is sent back to. */
    const from: string
    /** The paths navigated to, oldest first. */
    var navigations: seq<string>
    const auth: AuthContext.AuthState
    const storage: SessionStorage.Storage

    constructor(auth: AuthContext.AuthState, storage: SessionStorage.Storage, fromPath: Option<string>)
      ensures name == InitialName(auth.profile) && !loading && error.None?
      ensures from == ReturnPath(fromPath) && navigations == []
      ensures this.auth == auth && this.storage == storage
    {
      name := InitialName(auth.profile);
      loading := false;
      error := None;
      from := ReturnPath(fromPath);
      navigations := [];
      this.auth := auth;
      this.storage := storage;
    }

    /** handleSubmit: a blank name is refused; otherwise the trimmed name is
        saved through the context and, once the save went through, the flag is
        set and the user sent back. A save that throws shows its message and
        ends loading. `failure` is what the profile write throws, if anything;
        without a signed-in user the context writes nothing and throws nothing. */
    method HandleSubmit(failure: Option<Thrown>)
      modifies this, auth, storage
      ensures name == old(name)
      ensures IsBlank(old(name)) ==>
                error == Some(NameMissing) && loading == old(loading) && navigations == old(navigations)
                && unchanged(auth) && unchanged(storage)
      ensures !IsBlank(old(name)) ==> auth.user == old(auth.user) && auth.loading == old(auth.loading)
      ensures !IsBlank(old(name)) && old(auth.user).Some? ==>
                auth.profileWrites == old(auth.profileWrites) + [(old(auth.user).value.uid, NameUpdate(old(name)))]
      ensures !IsBlank(old(name)) && old(auth.user).None? ==>
                auth.profile == old(auth.profile) && auth.profileWrites == old(auth.profileWrites)
      ensures !IsBlank(old(name)) && old(auth.user).Some? && failure.Some? ==>
                error == Some(MessageOr(failure.value, SaveFailedFallback)) && !loading
                && navigations == old(navigations) && auth.profile == old(auth.profile) && unchanged(storage)
      ensures !IsBlank(old(name)) && (old(auth.user).None? || failure.None?) ==>
                error.None? && loading && navigations == old(navigations) + [from]
                && storage.items == old(storage.items)[ProtectedRoute.SetupCompleteKey := "true"]
      ensures !IsBlank(old(name)) && old(auth.user).Some? && failure.None? ==>
                auth.profile == AuthContext.Merge(old(auth.profile), NameUpdate(old(name)))
    {
      if IsBlank(name) {
        error := Some(NameMissing);
        return;
      }
      loading := true;
      error := None;
      var thrown := auth.UpdateProfile(NameUpdate(name), failure);
      if thrown.None? {
        storage.SetItem(ProtectedRoute.SetupCompleteKey, "true");
        navigations := navigations + [from];
      } else {
        error := Some(MessageOr(thrown.value, SaveFailedFallback));
        loading := false;
      }
    }
  }
}
