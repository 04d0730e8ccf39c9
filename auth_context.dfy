/** The authentication context every page reads: the signed-in user, their
    profile, whether the profile still needs a name, and the operations that
    change them. */
module AuthContext {
  import opened Common
  import opened Strings
  import opened Types

  /** What the page reads of a Firebase `User`. */
  datatype AuthUser = AuthUser(uid: string, email: Option<string>, phoneNumber: Option<string>,
                               displayName: Option<string>)

  const OutsideProviderMessage := "useAuth must be used within an AuthProvider"

  /** useAuth: the context, or an error when no provider is above the caller. */
  function UseAuth<C>(context: Option<C>): (r: Result<C, Thrown>)
    ensures context.Some? <==> r.Ok?
    ensures context.Some? ==> r.value == context.value
    ensures context.None? ==> r == Err(PlainError(OutsideProviderMessage))
  {
    match context
    case Some(c) => Ok(c)
    case None => Err(PlainError(OutsideProviderMessage))
  }

  /** `!!user && (!profile?.name || profile.name.trim() === '')`. */
  predicate NeedsProfileSetup(user: Option<AuthUser>, profile: Option<UserProfile>)
  {
    user.Some? && (profile.None? || profile.value.name == "" || Trim(profile.value.name) == "")
  }

  /** A signed-in user needs setup exactly when they have no profile or its
      name is blank (empty or white space only). */
  lemma NeedsSetupIffBlankName(user: Option<AuthUser>, profile: Option<UserProfile>)
    ensures NeedsProfileSetup(user, profile) <==> user.Some? && (profile.None? || AllSpace(profile.value.name))
  {
    if profile.Some? {
      BlankIffAllSpace(profile.value.name);
    }
  }

  /** The profile written for a user signing in for the first time; `createdAt`
      stands for the clock. */
  function InitialProfile(u: AuthUser, createdAt: string): (p: UserProfile)
    ensures p.id == u.uid && p.createdAt == createdAt
    ensures p.name == (if Truthy(u.displayName) then u.displayName.value else "")
    ensures Truthy(u.email) <==> p.email.Some? && (p.email.Some? ==> p.email == u.email)
    ensures Truthy(u.phoneNumber) <==> p.phone.Some? && (p.phone.Some? ==> p.phone == u.phoneNumber)
  {
    UserProfile(u.uid,
                if Truthy(u.displayName) then u.displayName.value else "",
                if Truthy(u.email) then u.email else None,
                if Truthy(u.phoneNumber) then u.phoneNumber else None,
                createdAt)
  }

  /** A first-time user without a display name is sent to profile setup. */
  lemma NewUserWithoutNameNeedsSetup(u: AuthUser, createdAt: string)
    requires !Truthy(u.displayName)
    ensures NeedsProfileSetup(Some(u), Some(InitialProfile(u, createdAt)))
  {
  }

  /** A `Partial<UserProfile>`: each field is absent (None) or the new value. */
  datatype ProfilePatch = ProfilePatch(id: Option<string>, name: Option<string>,
                                       email: Option<Option<string>>, phone: Option<Option<string>>,
                                       createdAt: Option<string>)

  function Pick<T>(update: Option<T>, current: T): T
  {
    if update.Some? then update.value else current
  }

  /** `prev ? { ...prev, ...updates } : null`. */
  function Merge(prev: Option<UserProfile>, u: ProfilePatch): (r: Option<UserProfile>)
    ensures r.None? <==> prev.None?
    ensures r.Some? ==>
              (u.id.Some? ==> r.value.id == u.id.value) && (u.id.None? ==> r.value.id == prev.value.id)
              && (u.name.Some? ==> r.value.name == u.name.value) && (u.name.None? ==> r.value.name == prev.value.name)
              && (u.email.Some? ==> r.value.email == u.email.value) && (u.email.None? ==> r.value.email == prev.value.email)
              && (u.phone.Some? ==> r.value.phone == u.phone.value) && (u.phone.None? ==> r.value.phone == prev.value.phone)
              && (u.createdAt.Some? ==> r.value.createdAt == u.createdAt.value)
              && (u.createdAt.None? ==> r.value.createdAt == prev.value.createdAt)
  {
    match prev
    case None => None
    case Some(p) =>
      Some(UserProfile(Pick(u.id, p.id), Pick(u.name, p.name), Pick(u.email, p.email),
                       Pick(u.phone, p.phone), Pick(u.createdAt, p.createdAt)))
  }

  /** Applying the same update twice is applying it once. */
  lemma MergeIdempotent(prev: Option<UserProfile>, u: ProfilePatch)
    ensures Merge(Merge(prev, u), u) == Merge(prev, u)
  {
  }

  /** An update that sets a non-blank name ends the need for setup. */
  lemma NamedProfileNeedsNoSetup(user: AuthUser, prev: UserProfile, u: ProfilePatch)
    requires u.name.Some? && !AllSpace(u.name.value)
    ensures !NeedsProfileSetup(Some(user), Merge(Some(prev), u))
  {
    NeedsSetupIffBlankName(Some(user), Merge(Some(prev), u));
  }

  /** Every field of a profile, as an update. */
  function PatchOf(p: UserProfile): ProfilePatch
  {
    ProfilePatch(Some(p.id), Some(p.name), Some(p.email), Some(p.phone), Some(p.createdAt))
  }

  class AuthState {
    var user: Option<AuthUser>
    var profile: Option<UserProfile>
    var loading: bool
    /** The `(uid, fields)` profile writes sent to the database, oldest first. */
    var profileWrites: seq<(string, ProfilePatch)>

    constructor()
      ensures user.None? && profile.None? && loading && profileWrites == []
    {
      user := None;
      profile := None;
      loading := true;
      profileWrites := [];
    }

    /** The auth listener: records the user; a signed-in user gets their stored
        profile, or a new one written from the auth data; signing out clears the
        profile. `lookup` is what the profile lookup settles to and
        `createFailure` what the write of a new profile throws, if anything.
        A rejected lookup or write ends the listener before `setLoading(false)`,
        so the profile and the loading state are left as they were. */
    method OnAuthChange(firebaseUser: Option<AuthUser>, lookup: Result<Option<UserProfile>, Thrown>,
                        createFailure: Option<Thrown>, createdAt: string)
      modifies this
      ensures user == firebaseUser
      ensures firebaseUser.None? ==> profile.None? && !loading && profileWrites == old(profileWrites)
      ensures firebaseUser.Some? && lookup.Err? ==>
                profile == old(profile) && loading == old(loading) && profileWrites == old(profileWrites)
      ensures firebaseUser.Some? && lookup.Ok? && lookup.value.Some? ==>
                profile == lookup.value && !loading && profileWrites == old(profileWrites)
      ensures firebaseUser.Some? && lookup.Ok? && lookup.value.None? ==>
                var p := InitialProfile(firebaseUser.value, createdAt);
                profileWrites == old(profileWrites) + [(firebaseUser.value.uid, PatchOf(p))]
                && (createFailure.None? ==> profile == Some(p) && !loading)
                && (createFailure.Some? ==> profile == old(profile) && loading == old(loading))
    {
      user := firebaseUser;
      if firebaseUser.Some? {
        if lookup.Err? {
          return;
        }
        var existingProfile := lookup.value;
        if existingProfile.Some? {
          profile := existingProfile;
        } else {
          var initialProfile := InitialProfile(firebaseUser.value, createdAt);
          profileWrites := profileWrites + [(firebaseUser.value.uid, PatchOf(initialProfile))];
          if createFailure.Some? {
            return;
          }
          profile := Some(initialProfile);
        }
      } else {
        profile := None;
      }
      loading := false;
    }

    /** updateProfile: without a user nothing happens and nothing is thrown;
        otherwise the update is written and, once the write succeeded, merged
        into the profile held (a missing profile stays missing). `failure` is
        what the write throws, if anything; it is passed on to the caller and
        leaves the profile as it was. */
    method UpdateProfile(updates: ProfilePatch, failure: Option<Thrown>) returns (thrown: Option<Thrown>)
      modifies this
      ensures user == old(user) && loading == old(loading)
      ensures old(user).None? ==> profile == old(profile) && profileWrites == old(profileWrites) && thrown.None?
      ensures old(user).Some? ==>
                profileWrites == old(profileWrites) + [(old(user).value.uid, updates)] && thrown == failure
      ensures old(user).Some? && failure.None? ==> profile == Merge(old(profile), updates)
      ensures failure.Some? ==> profile == old(profile)
    {
      if user.None? {
        return None;
      }
      profileWrites := profileWrites + [(user.value.uid, updates)];
      if failure.Some? {
        return failure;
      }
      profile := Merge(profile, updates);
      return None;
    }

    /** logout: signs out and forgets the user and the profile. `failure` is
        what the sign-out throws, if anything; it is passed on to the caller
        and leaves the user and the profile as they were. */
    method Logout(failure: Option<Thrown>) returns (thrown: Option<Thrown>)
      modifies this
      ensures thrown == failure
      ensures failure.None? ==> user.None? && profile.None? && !NeedsProfileSetup(user, profile)
      ensures failure.Some? ==> user == old(user) && profile == old(profile)
      ensures loading == old(loading) && profileWrites == old(profileWrites)
    {
      if failure.Some? {
        return failure;
      }
      user := None;
      profile := None;
      return None;
    }
  }
}
