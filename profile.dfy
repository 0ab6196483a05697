/**
 * The profile hook: the profile state (null until loaded), its copy under
 * `'userProfile'` in storage, and the reload on a profile-change notification.
 */
module Profiles {
  import opened Wrappers
  import opened Records
  import opened LocalStorage

  const ProfileKey := "userProfile"

  /** The profile an updater is applied to: the loaded one, or the default when none is loaded. */
  function Current(profile: Option<Profile>): (p: Profile)
    ensures profile.Some? ==> p == profile.value
    ensures profile.None? ==> p == DefaultProfile
  {
    if profile.Some? then profile.value else DefaultProfile
  }

  /** The profile the mount effect settles on, given what is stored. */
  function Loaded(stored: Option<Value>): (p: Profile)
    ensures ReadProfile(stored).Parsed? ==> p == ReadProfile(stored).value
    ensures !ReadProfile(stored).Parsed? ==> p == DefaultProfile
  {
    match ReadProfile(stored)
    case Parsed(q) => q
    case _ => DefaultProfile
  }

  class ProfileHook {
    var profile: Option<Profile>
    const store: Store

    constructor (store: Store)
      ensures this.store == store && profile == None
    {
      this.store := store;
      profile := None;
    }

    /**
     * The mount effect. With nothing stored, the default becomes the profile and is
     * stored; a stored profile is adopted; unreadable text yields the default
     * without rewriting storage.
     */
    method Load()
      modifies this, store
      ensures var stored := Lookup(old(store.entries), ProfileKey);
              profile == Some(Loaded(stored))
              && store.entries == (if ReadProfile(stored).Missing?
                                   then old(store.entries)[ProfileKey := StoredProfile(DefaultProfile)]
                                   else old(store.entries))
    {
      var saved := store.GetItem(ProfileKey);
      match ReadProfile(saved)
      case Parsed(p) =>
        profile := Some(p);
      case Missing =>
        profile := Some(DefaultProfile);
        store.SetItem(ProfileKey, StoredProfile(DefaultProfile));
      case Unparseable =>
        profile := Some(DefaultProfile);
    }

    /** `setProfile(value)`: the state and the stored entry both become `value`. */
    method SetProfile(value: Profile)
      modifies this, store
      ensures profile == Some(value)
      ensures store.entries == old(store.entries)[ProfileKey := StoredProfile(value)]
    {
      profile := Some(value);
      store.SetItem(ProfileKey, StoredProfile(value));
    }

    /** `setProfile(updater)`: the updater is applied to the current profile, or to the default when none is loaded. */
    method UpdateProfile(update: Profile -> Profile)
      modifies this, store
      ensures profile == Some(update(Current(old(profile))))
      ensures store.entries == old(store.entries)[ProfileKey := StoredProfile(update(Current(old(profile))))]
    {
      var next := update(Current(profile));
      profile := Some(next);
      store.SetItem(ProfileKey, StoredProfile(next));
    }

    /**
     * The profile-change listener: reloads from storage when an entry exists and
     * otherwise changes nothing. The source parses without a guard, so unreadable
     * text would throw; here the profile is then left as it was.
     */
    method OnProfileChange() returns (outcome: Read<Profile>)
      modifies this
      ensures outcome == ReadProfile(Lookup(store.entries, ProfileKey))
      ensures profile == (if outcome.Parsed? then Some(outcome.value) else old(profile))
    {
      var updated := store.GetItem(ProfileKey);
      outcome := ReadProfile(updated);
      if outcome.Parsed? {
        profile := Some(outcome.value);
      }
    }
  }

  /** A setter followed by its own change notification leaves the profile where the setter put it. */
  method SetThenNotify(hook: ProfileHook, value: Profile)
    modifies hook, hook.store
    ensures hook.profile == Some(value)
    ensures hook.store.entries == old(hook.store.entries)[ProfileKey := StoredProfile(value)]
  {
    hook.SetProfile(value);
    var outcome := hook.OnProfileChange();
    assert outcome == Parsed(value);
  }
}
