/**
 * The profile page: single-field edits from the text inputs, the picture
 * change, the no-op save, and rendering nothing until a profile is loaded.
 */
module ProfilePage {
  import opened Wrappers
  import opened Records
  import opened LocalStorage
  import opened Profiles

  datatype Field = FullName | Email | FarmName | FarmLocation | AvatarUrl

  /** The property name of a field. */
  function FieldId(f: Field): string
  {
    match f
    case FullName => "fullName"
    case Email => "email"
    case FarmName => "farmName"
    case FarmLocation => "farmLocation"
    case AvatarUrl => "avatarUrl"
  }

  /** The field a property name denotes, if any. */
  function FieldOfId(id: string): (r: Option<Field>)
    ensures r.Some? ==> FieldId(r.value) == id
    ensures forall f :: FieldId(f) == id ==> r == Some(f)
  {
    if id == "fullName" then Some(FullName)
    else if id == "email" then Some(Email)
    else if id == "farmName" then Some(FarmName)
    else if id == "farmLocation" then Some(FarmLocation)
    else if id == "avatarUrl" then Some(AvatarUrl)
    else None
  }

  function Get(p: Profile, f: Field): string
  {
    match f
    case FullName => p.fullName
    case Email => p.email
    case FarmName => p.farmName
    case FarmLocation => p.farmLocation
    case AvatarUrl => p.avatarUrl
  }

  /** `{ ...p, [f]: v }`: the named field becomes `v`, every other field is kept. */
  function WithField(p: Profile, f: Field, v: string): (r: Profile)
    ensures Get(r, f) == v
    ensures forall g :: g != f ==> Get(r, g) == Get(p, g)
  {
    match f
    case FullName => p.(fullName := v)
    case Email => p.(email := v)
    case FarmName => p.(farmName := v)
    case FarmLocation => p.(farmLocation := v)
    case AvatarUrl => p.(avatarUrl := v)
  }

  /** The ids of the page's text inputs. */
  const TextInputIds: seq<string> := ["fullName", "email", "farmName", "farmLocation"]

  /** The update an input change applies: the field named by the input's id takes the typed value. */
  function ApplyInput(p: Profile, id: string, value: string): (r: Profile)
    ensures FieldOfId(id).Some? ==> Get(r, FieldOfId(id).value) == value
    ensures FieldOfId(id).Some? ==> forall g :: g != FieldOfId(id).value ==> Get(r, g) == Get(p, g)
    ensures FieldOfId(id).None? ==> r == p
  {
    match FieldOfId(id)
    case Some(f) => WithField(p, f, value)
    case None => p
  }

  /** The update a picture choice applies: the avatar takes the data URL. */
  function ApplyPicture(p: Profile, dataUrl: string): (r: Profile)
    ensures Get(r, AvatarUrl) == dataUrl
    ensures forall g :: g != AvatarUrl ==> Get(r, g) == Get(p, g)
  {
    WithField(p, AvatarUrl, dataUrl)
  }

  /** An edit from a text input replaces exactly the field its id names and keeps every other one. */
  lemma InputEditsOneField(p: Profile, k: nat, value: string)
    requires k < |TextInputIds|
    ensures var f := FieldOfId(TextInputIds[k]);
            f.Some? && f.value != AvatarUrl
            && Get(ApplyInput(p, TextInputIds[k], value), f.value) == value
            && forall g :: g != f.value ==> Get(ApplyInput(p, TextInputIds[k], value), g) == Get(p, g)
  {
  }

  /** No text input reaches the avatar; only the picture handler changes it. */
  lemma AvatarOnlyFromPicture(p: Profile, k: nat, value: string, dataUrl: string)
    requires k < |TextInputIds|
    ensures ApplyInput(p, TextInputIds[k], value).avatarUrl == p.avatarUrl
    ensures var q := ApplyPicture(p, dataUrl);
            q.avatarUrl == dataUrl && q == p.(avatarUrl := dataUrl)
  {
  }

  /** What the page shows for a loaded profile. */
  datatype ProfileView = ProfileView(avatarSrc: string, initial: string, heading: string, subheading: string, fields: seq<string>)

  /** The page: nothing until a profile is loaded, then the avatar, the name's first character, and the four inputs. */
  function Render(profile: Option<Profile>): (v: Option<ProfileView>)
    ensures v.None? <==> profile.None?
    ensures v.Some? ==> v.value.avatarSrc == profile.value.avatarUrl
                        && |v.value.initial| <= 1
                        && v.value.initial <= profile.value.fullName
                        && (profile.value.fullName != "" ==> v.value.initial != "")
    ensures v.Some? ==> v.value.heading == profile.value.fullName && v.value.subheading == profile.value.email
    ensures v.Some? ==> |v.value.fields| == |TextInputIds|
                        && forall k :: 0 <= k < |TextInputIds| ==>
                             v.value.fields[k] == Get(profile.value, FieldOfId(TextInputIds[k]).value)
  {
    if profile.None? then None
    else
      var p := profile.value;
      Some(ProfileView(p.avatarUrl, if p.fullName == "" then "" else p.fullName[..1], p.fullName, p.email,
                       [p.fullName, p.email, p.farmName, p.farmLocation]))
  }

  class ProfilePage {
    const hook: ProfileHook

    constructor (hook: ProfileHook)
      ensures this.hook == hook
    {
      this.hook := hook;
    }

    /** A text input changed: its field takes the typed value, through the updater form of `setProfile`. */
    method HandleInputChange(id: string, value: string)
      modifies hook, hook.store
      ensures hook.profile == Some(ApplyInput(Current(old(hook.profile)), id, value))
      ensures hook.store.entries == old(hook.store.entries)[ProfileKey := StoredProfile(hook.profile.value)]
    {
      hook.UpdateProfile(p => ApplyInput(p, id, value));
    }

    /** A picture was chosen (the data URL its reader produced) or the chooser was dismissed (nothing). */
    method HandlePictureChange(picked: Option<string>)
      modifies hook, hook.store
      ensures picked.None? ==> hook.profile == old(hook.profile) && hook.store.entries == old(hook.store.entries)
      ensures picked.Some? ==>
                hook.profile == Some(ApplyPicture(Current(old(hook.profile)), picked.value))
                && hook.store.entries == old(hook.store.entries)[ProfileKey := StoredProfile(hook.profile.value)]
    {
      if picked.Some? {
        var dataUrl := picked.value;
        hook.UpdateProfile(p => ApplyPicture(p, dataUrl));
      }
    }

    /** Save Changes only shows a notice: the hook already saved every edit. */
    method HandleSaveChanges()
      ensures unchanged(hook, hook.store)
    {
    }
  }
}
