/** The profile page (src/app/dashboard/profile/page.tsx): the profile
    fetched at mount, and an update that refetches it on success. */
module Profile {
  import opened Http

  /** The `data` object of `GET /users/me`. */
  datatype ProfileData = ProfileData(name: string, email: string, role: string, profileImage: Option<string>)

  /** The profile a fetch delivers: the `data` of a 2xx response, when there
      is one. */
  function LoadedProfile(x: Exchange<ProfileData>): (r: Option<ProfileData>)
    ensures r.Some? <==> x.Answered? && IsOk(x.status) && DataOf(x.body).Some?
    ensures r.Some? ==> r == DataOf(x.body)
  {
    match Axios(x, Only2xx)
    case Fulfilled(_, body) => DataOf(body)
    case Rejected(_) => None
  }

  /** The image field the form starts from: `profileImage || ""`. */
  function ImageField(d: ProfileData): (s: string)
    ensures Truthy(d.profileImage) ==> s == d.profileImage.value
    ensures !Truthy(d.profileImage) ==> s == ""
  {
    OrElse(d.profileImage, "")
  }

  /** The request body of an update. */
  datatype ProfileUpdate = ProfileUpdate(name: string, profileImage: string)

  class ProfileView {
    var profile: Option<ProfileData>  // `None`: set to `undefined` by a response without `data`
    var name: string
    var profileImage: string
    var loading: bool
    var error: Option<string>
    var success: Option<string>

    constructor ()
      ensures profile == Some(ProfileData("", "", "", Some(""))) && name == "" && profileImage == ""
      ensures loading && error == None && success == None
    {
      profile := Some(ProfileData("", "", "", Some("")));
      name, profileImage := "", "";
      loading, error, success := true, None, None;
    }

    /** `fetchProfile`: a delivered profile is stored and copied into the form
        fields, with no error. A 2xx response without `data` stores `undefined`
        and then throws; any failure shows "Failed to load profile" and keeps
        the form fields. `loading` ends false; `success` is not touched. */
    method FetchProfile(x: Exchange<ProfileData>)
      modifies this
      ensures !loading && success == old(success)
      ensures LoadedProfile(x).Some? ==>
                profile == LoadedProfile(x) && error == None
                && name == LoadedProfile(x).value.name && profileImage == ImageField(LoadedProfile(x).value)
      ensures LoadedProfile(x).None? ==>
                error == Some("Failed to load profile") && name == old(name) && profileImage == old(profileImage)
      ensures LoadedProfile(x).None? && x.Answered? && IsOk(x.status) ==> profile == None
      ensures !(x.Answered? && IsOk(x.status)) ==> profile == old(profile)
    {
      loading := true;
      error := None;
      match Axios(x, Only2xx) {
        case Fulfilled(_, body) =>
          profile := DataOf(body);
          if profile.Some? {
            name := profile.value.name;
            profileImage := OrElse(profile.value.profileImage, "");
          } else {
            error := Some("Failed to load profile");
          }
        case Rejected(_) =>
          error := Some("Failed to load profile");
      }
      loading := false;
    }

    /** `handleUpdate`: `error` and `success` are cleared first. A saved update
        shows "Profile updated successfully" and refetches (its outcome is
        `refetch`); a failed one shows "Failed to update profile" and does not
        refetch. */
    method HandleUpdate(x: Exchange<()>, refetch: Exchange<ProfileData>) returns (sent: ProfileUpdate)
      modifies this
      ensures sent == ProfileUpdate(old(name), old(profileImage))
      ensures !(x.Answered? && IsOk(x.status)) ==>
                error == Some("Failed to update profile") && success == None
                && profile == old(profile) && name == old(name) && profileImage == old(profileImage)
                && loading == old(loading)
      ensures x.Answered? && IsOk(x.status) ==> success == Some("Profile updated successfully") && !loading
      ensures x.Answered? && IsOk(x.status) && LoadedProfile(refetch).Some? ==>
                profile == LoadedProfile(refetch) && error == None
                && name == LoadedProfile(refetch).value.name
                && profileImage == ImageField(LoadedProfile(refetch).value)
      ensures x.Answered? && IsOk(x.status) && LoadedProfile(refetch).None? ==>
                error == Some("Failed to load profile") && name == old(name) && profileImage == old(profileImage)
      ensures x.Answered? && IsOk(x.status) && LoadedProfile(refetch).None? && refetch.Answered? && IsOk(refetch.status) ==>
                profile == None
      ensures x.Answered? && IsOk(x.status) && !(refetch.Answered? && IsOk(refetch.status)) ==>
                profile == old(profile)
    {
      error := None;
      success := None;
      sent := ProfileUpdate(name, profileImage);
      if Axios(x, Only2xx).Fulfilled? {
        success := Some("Profile updated successfully");
        FetchProfile(refetch);
      } else {
        error := Some("Failed to update profile");
      }
    }
  }
}
