/** `ProfileService`: the user's profile, its listeners and its stored copy. */
module Profile {
  import opened Wrappers
  import opened Seqs
  import opened Text

  datatype Experience = Experience(role: string, company: string, duration: string)

  datatype UserProfile = UserProfile(
    name: string,
    headline: string,
    location: string,
    about: string,
    skills: seq<string>,
    linkedinUrl: string,
    isConfigured: bool,
    experience: seq<Experience>)

  /** The profile a fresh service starts from, and the one `resetProfile` restores. */
  const EmptyProfile := UserProfile("", "", "", "", [], "", false, [])

  /** `Partial<UserProfile>`: each key is either absent or carries a value. */
  datatype ProfilePatch = ProfilePatch(
    name: Option<string>,
    headline: Option<string>,
    location: Option<string>,
    about: Option<string>,
    skills: Option<seq<string>>,
    linkedinUrl: Option<string>,
    isConfigured: Option<bool>,
    experience: Option<seq<Experience>>)

  const NoProfileChanges := ProfilePatch(None, None, None, None, None, None, None, None)

  /** `{ ...profile, ...patch }`. */
  function ApplyProfilePatch(p: UserProfile, patch: ProfilePatch): (r: UserProfile)
    ensures patch == NoProfileChanges ==> r == p
  {
    UserProfile(patch.name.GetOr(p.name), patch.headline.GetOr(p.headline),
                patch.location.GetOr(p.location), patch.about.GetOr(p.about),
                patch.skills.GetOr(p.skills), patch.linkedinUrl.GetOr(p.linkedinUrl),
                patch.isConfigured.GetOr(p.isConfigured), patch.experience.GetOr(p.experience))
  }

  /** The patch that writes every field of `p`: what `JSON.stringify(profile)` stores. */
  function AsPatch(p: UserProfile): ProfilePatch {
    ProfilePatch(Some(p.name), Some(p.headline), Some(p.location), Some(p.about), Some(p.skills),
                 Some(p.linkedinUrl), Some(p.isConfigured), Some(p.experience))
  }

  /** `updateProfile(updates)`: the supplied fields, then `isConfigured` forced on. */
  function Updated(p: UserProfile, patch: ProfilePatch): (r: UserProfile)
    ensures r.isConfigured
    ensures patch.name.None? ==> r.name == p.name
    ensures patch.name.Some? ==> r.name == patch.name.value
    ensures patch.skills.None? ==> r.skills == p.skills
    ensures patch.skills.Some? ==> r.skills == patch.skills.value
    ensures patch.experience.None? ==> r.experience == p.experience
    ensures patch.experience.Some? ==> r.experience == patch.experience.value
    ensures patch.headline.None? ==> r.headline == p.headline
    ensures patch.headline.Some? ==> r.headline == patch.headline.value
    ensures patch.location.None? ==> r.location == p.location
    ensures patch.location.Some? ==> r.location == patch.location.value
    ensures patch.about.None? ==> r.about == p.about
    ensures patch.about.Some? ==> r.about == patch.about.value
    ensures patch.linkedinUrl.None? ==> r.linkedinUrl == p.linkedinUrl
    ensures patch.linkedinUrl.Some? ==> r.linkedinUrl == patch.linkedinUrl.value
  {
    ApplyProfilePatch(p, patch).(isConfigured := true)
  }

  /** Supplying `isConfigured: false` does not unset the flag, and
      re-applying an update changes nothing more. */
  lemma UpdateAlwaysConfigures(p: UserProfile, patch: ProfilePatch)
    ensures Updated(p, patch.(isConfigured := Some(false))) == Updated(p, patch)
    ensures Updated(Updated(p, patch), patch) == Updated(p, patch)
  {
  }

  /** Every field the patch leaves out keeps its old value. */
  lemma UpdateKeepsOthers(p: UserProfile, patch: ProfilePatch)
    requires patch.headline.None? && patch.location.None? && patch.about.None? && patch.linkedinUrl.None?
    ensures var r := Updated(p, patch);
            r.headline == p.headline && r.location == p.location && r.about == p.about
            && r.linkedinUrl == p.linkedinUrl
  {
  }

  const DemoUrlMarker := "prakashsellathurai"

  const DemoProfileSkills := ["React", "TypeScript", "Node.js", "Python", "AWS", "Docker"]

  const GenericSkills := ["Communication", "Leadership", "Problem Solving"]

  /** `fetchLinkedInProfile(url)`: the fixed demo profile for the demo URL;
      otherwise name, headline, URL and skills are replaced and every other
      field is kept. Both branches mark the profile configured. */
  function Fetched(p: UserProfile, url: string): (r: UserProfile)
    ensures r.isConfigured && r.linkedinUrl == url
    ensures Contains(url, DemoUrlMarker) ==> |r.experience| == 2 && r.skills == DemoProfileSkills
    ensures !Contains(url, DemoUrlMarker) ==>
      r == p.(name := "LinkedIn User", headline := "Fetched from LinkedIn", skills := GenericSkills,
              linkedinUrl := url, isConfigured := true)
  {
    if Contains(url, DemoUrlMarker) then
      UserProfile(
        "Prakash Sellathurai",
        "Senior Software Engineer | AI Enthusiast",
        "Bangalore, India",
        "Passionate about building scalable web applications.",
        DemoProfileSkills,
        url,
        true,
        [Experience("Senior Software Engineer", "Tech Corp", "2021 - Present"),
         Experience("Software Engineer", "Startup Inc", "2019 - 2021")])
    else
      p.(linkedinUrl := url, name := "LinkedIn User", headline := "Fetched from LinkedIn",
         isConfigured := true, skills := GenericSkills)
  }

  /** The demo profile does not depend on the profile it replaces. */
  lemma DemoFetchIgnoresOldProfile(p: UserProfile, q: UserProfile, url: string)
    requires Contains(url, DemoUrlMarker)
    ensures Fetched(p, url) == Fetched(q, url)
  {
  }

  /** What the `wm-profile` key holds when the service starts. */
  datatype StoredProfile = Absent | Unparsable | Parsed(fields: ProfilePatch)

  /** `loadProfile()`: stored fields are laid over the empty profile; a
      missing key or a parse failure leaves the empty profile. */
  function Loaded(s: StoredProfile): (r: UserProfile)
    ensures !s.Parsed? ==> r == EmptyProfile
  {
    match s
    case Parsed(fields) => ApplyProfilePatch(EmptyProfile, fields)
    case _ => EmptyProfile
  }

  /** Loading what was saved gives back the saved profile. */
  lemma LoadAfterSave(p: UserProfile)
    ensures Loaded(Parsed(AsPatch(p))) == p
  {
  }

  /** A listener call, with the profile it was handed. */
  datatype Call = Call(listener: nat, profile: UserProfile)

  /** The calls `notify` makes: every listener in order, each with the same profile. */
  function CallsFor(listeners: seq<nat>, p: UserProfile): (r: seq<Call>)
    ensures |r| == |listeners|
    ensures forall i :: 0 <= i < |listeners| ==> r[i] == Call(listeners[i], p)
  {
    seq(|listeners|, i requires 0 <= i < |listeners| => Call(listeners[i], p))
  }

  class ProfileService {
    var profile: UserProfile
    /** Registered listeners in subscription order (named by number). */
    var listeners: seq<nat>
    /** Every listener call so far, oldest first. */
    var calls: seq<Call>
    /** What this service last wrote to `wm-profile`. */
    var saved: Option<UserProfile>

    constructor (storage: StoredProfile)
      ensures profile == Loaded(storage)
      ensures listeners == [] && calls == [] && saved == None
    {
      var loaded := EmptyProfile;
      if storage.Parsed? {
        loaded := ApplyProfilePatch(loaded, storage.fields);
      }
      profile := loaded;
      listeners := [];
      calls := [];
      saved := None;
    }

    method GetProfile() returns (r: UserProfile)
      ensures r == profile
    {
      r := profile;
    }

    /** `subscribe(listener)`: registered last and called once at once. */
    method Subscribe(listener: nat)
      modifies this`listeners, this`calls
      ensures listeners == old(listeners) + [listener]
      ensures calls == old(calls) + [Call(listener, profile)]
    {
      listeners := listeners + [listener];
      calls := calls + [Call(listener, profile)];
    }

    /** The function `subscribe` returns: every registration of that
        listener goes, the other listeners stay in order. */
    method Unsubscribe(listener: nat)
      modifies this`listeners
      ensures forall l :: l in listeners <==> l in old(listeners) && l != listener
      ensures IsSubseq(listeners, old(listeners))
      ensures forall l :: l != listener ==> multiset(listeners)[l] == multiset(old(listeners))[l]
    {
      FilterIsSubseq(listeners, (l: nat) => l != listener);
      listeners := Filter(listeners, (l: nat) => l != listener);
    }

    /** `notify()`: each listener is called with the current profile, then it is saved. */
    method Notify()
      modifies this`calls, this`saved
      ensures calls == old(calls) + CallsFor(listeners, profile)
      ensures saved == Some(profile)
    {
      var i := 0;
      while i < |listeners|
        invariant 0 <= i <= |listeners|
        invariant calls == old(calls) + CallsFor(listeners[..i], profile)
      {
        assert CallsFor(listeners[..i + 1], profile) == CallsFor(listeners[..i], profile) + [Call(listeners[i], profile)];
        calls := calls + [Call(listeners[i], profile)];
        i := i + 1;
      }
      assert listeners[..i] == listeners;
      saved := Some(profile);
    }

    method UpdateProfile(patch: ProfilePatch)
      modifies this`profile, this`calls, this`saved
      ensures profile == Updated(old(profile), patch)
      ensures calls == old(calls) + CallsFor(listeners, profile)
      ensures saved == Some(profile)
    {
      profile := Updated(profile, patch);
      Notify();
    }

    method ResetProfile()
      modifies this`profile, this`calls, this`saved
      ensures profile == EmptyProfile
      ensures calls == old(calls) + CallsFor(listeners, EmptyProfile)
      ensures saved == Some(EmptyProfile)
    {
      profile := EmptyProfile;
      Notify();
    }

    method FetchLinkedInProfile(url: string) returns (r: UserProfile)
      modifies this`profile, this`calls, this`saved
      ensures r == profile == Fetched(old(profile), url)
      ensures calls == old(calls) + CallsFor(listeners, profile)
      ensures saved == Some(profile)
    {
      profile := Fetched(profile, url);
      Notify();
      r := profile;
    }
  }
}
