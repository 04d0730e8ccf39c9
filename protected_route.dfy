/** The guard around every signed-in page: a spinner while the session is
    loading, the sign-in page for visitors, the profile-setup page for users
    without a name, and otherwise the page itself. A one-shot flag in session
    storage lets the first render after profile setup through. */
module ProtectedRoute {
  import opened Common
  import SessionStorage

  const AuthPath := "/auth"
  const SetupPath := "/profile/setup"
  /** The session-storage key of the bypass flag. */
  const SetupCompleteKey := "profileSetupComplete"

  /** What is rendered; a redirect carries the path it was made from. */
  datatype View = Spinner | Redirect(to: string, from: string) | Children

  /** The view, and whether the bypass flag is consumed by this render. */
  datatype Outcome = Outcome(view: View, removeFlag: bool)

  /** Whether the page needs a profile and this is not the setup page itself. */
  predicate SetupDue(needsSetup: bool, pathname: string)
  {
    needsSetup && pathname != SetupPath
  }

  /** One render, given the session state, the current path and the flag
      read from session storage. */
  function Decide(loading: bool, signedIn: bool, needsSetup: bool, pathname: string,
                  flag: Option<string>): (r: Outcome)
    ensures loading ==> r == Outcome(Spinner, false)
    ensures !loading && !signedIn ==> r == Outcome(Redirect(AuthPath, pathname), false)
    ensures r.removeFlag <==> !loading && signedIn && SetupDue(needsSetup, pathname) && Truthy(flag)
    ensures r.view.Redirect? && r.view.to == SetupPath <==>
              !loading && signedIn && SetupDue(needsSetup, pathname) && !Truthy(flag)
    ensures r.view == Children <==> !loading && signedIn && (!SetupDue(needsSetup, pathname) || Truthy(flag))
  {
    if loading then Outcome(Spinner, false)
    else if !signedIn then Outcome(Redirect(AuthPath, pathname), false)
    else if SetupDue(needsSetup, pathname) then
      if Truthy(flag) then Outcome(Children, true)
      else Outcome(Redirect(SetupPath, pathname), false)
    else Outcome(Children, false)
  }

  /** The session storage after a render. */
  function StorageAfter(items: map<string, string>, loading: bool, signedIn: bool, needsSetup: bool,
                        pathname: string): map<string, string>
  {
    var flag := SessionStorage.Get(items, SetupCompleteKey);
    if Decide(loading, signedIn, needsSetup, pathname, flag).removeFlag then items - {SetupCompleteKey}
    else items
  }

  /** The setup page is never redirected to itself, so setup cannot loop. */
  lemma SetupPageNeverRedirectsToItself(loading: bool, signedIn: bool, needsSetup: bool, flag: Option<string>)
    ensures Decide(loading, signedIn, needsSetup, SetupPath, flag).view != Redirect(SetupPath, SetupPath)
    ensures !Decide(loading, signedIn, needsSetup, SetupPath, flag).removeFlag
  {
  }

  /** The bypass is one-shot: while the profile still needs a name, a set flag
      lets exactly one render through and the next one redirects to setup. */
  lemma BypassIsOneShot(items: map<string, string>, needsSetup: bool, pathname: string)
    requires SetupDue(needsSetup, pathname)
    requires SetupCompleteKey in items && items[SetupCompleteKey] != ""
    ensures Decide(false, true, needsSetup, pathname, SessionStorage.Get(items, SetupCompleteKey)).view == Children
    ensures var next := StorageAfter(items, false, true, needsSetup, pathname);
            SetupCompleteKey !in next
            && Decide(false, true, needsSetup, pathname, SessionStorage.Get(next, SetupCompleteKey)).view
               == Redirect(SetupPath, pathname)
  {
  }

  /** A render that does not need setup leaves the flag where it is, so a flag
      set by a completed setup survives until some later render needs setup. */
  lemma FlagKeptWhenSetupNotDue(items: map<string, string>, loading: bool, signedIn: bool, needsSetup: bool,
                                pathname: string)
    requires loading || !signedIn || !SetupDue(needsSetup, pathname)
    ensures StorageAfter(items, loading, signedIn, needsSetup, pathname) == items
  {
  }

  /** The route as a component: reads the flag, removes it when it is used. */
  method Render(storage: SessionStorage.Storage, loading: bool, signedIn: bool, needsSetup: bool,
                pathname: string) returns (v: View)
    modifies storage
    ensures v == Decide(loading, signedIn, needsSetup, pathname,
                        SessionStorage.Get(old(storage.items), SetupCompleteKey)).view
    ensures storage.items == StorageAfter(old(storage.items), loading, signedIn, needsSetup, pathname)
  {
    if loading {
      return Spinner;
    }
    if !signedIn {
      return Redirect(AuthPath, pathname);
    }
    if needsSetup && pathname != SetupPath {
      var setupComplete := storage.GetItem(SetupCompleteKey);
      if Truthy(setupComplete) {
        storage.RemoveItem(SetupCompleteKey);
      } else {
        return Redirect(SetupPath, pathname);
      }
    }
    return Children;
  }
}
