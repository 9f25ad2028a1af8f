/** The settings screen's form: its initial values, field edits, the checks an avatar
    file must pass before it is uploaded, and the avatar the screen shows. */
module UserSettings {
  import opened Wrappers
  import opened Text
  import opened Domain
  import opened AvatarUtils

  /** The account as the settings screen receives it; `theme` and
      `notifications_enabled` may be missing. */
  datatype SettingsUser = SettingsUser(profile: Profile, theme: Option<string>, notificationsEnabled: Option<bool>)

  /** A form value: an input's text or a checkbox's state. */
  datatype FieldValue = Text(s: string) | Flag(b: bool)

  type FormData = map<string, FieldValue>

  /** JavaScript truthiness of a form value; a missing key reads as `undefined`. */
  predicate Truthy(form: FormData, key: string) {
    key in form && match form[key] case Text(s) => s != [] case Flag(b) => b
  }

  /** The form's first state: the avatar and theme fall back when missing or empty, the
      notification switch only when missing, so an explicit `false` is kept. */
  function InitialForm(user: SettingsUser): (r: FormData)
    ensures r.Keys == {"display_name", "avatar_url", "theme", "notifications_enabled"}
    ensures r["display_name"] == Text(user.profile.displayName)
    ensures r["avatar_url"] == Text(if user.profile.avatarUrl.Some? then user.profile.avatarUrl.value else "")
    ensures r["theme"] == Text(if user.theme.Some? && user.theme.value != [] then user.theme.value else "light")
    ensures user.notificationsEnabled.None? ==> r["notifications_enabled"] == Flag(true)
    ensures user.notificationsEnabled.Some? ==> r["notifications_enabled"] == Flag(user.notificationsEnabled.value)
  {
    map["display_name" := Text(user.profile.displayName),
        "avatar_url" := Text(if user.profile.avatarUrl.Some? then user.profile.avatarUrl.value else ""),
        "theme" := Text(if user.theme.Some? && user.theme.value != [] then user.theme.value else "light"),
        "notifications_enabled" := Flag(if user.notificationsEnabled.Some? then user.notificationsEnabled.value else true)]
  }

  /** `handleChange`'s updater: the named field takes the checkbox's state or the input's
      text; every other field keeps its value. */
  function Changed(form: FormData, name: string, value: string, isCheckbox: bool, checked: bool): (r: FormData)
    ensures r.Keys == form.Keys + {name}
    ensures r[name] == if isCheckbox then Flag(checked) else Text(value)
    ensures forall k :: k in form && k != name ==> r[k] == form[k]
  {
    form[name := if isCheckbox then Flag(checked) else Text(value)]
  }

  /** Editing the same field twice keeps only the second edit. */
  lemma LastChangeWins(form: FormData, name: string, v1: string, c1: bool, k1: bool, v2: string, c2: bool, k2: bool)
    ensures Changed(Changed(form, name, v1, c1, k1), name, v2, c2, k2) == Changed(form, name, v2, c2, k2)
  {
  }

  /** A chosen file, as the browser describes it. */
  datatype FileInfo = FileInfo(mimeType: string, size: nat)

  const MaxAvatarBytes := 5 * 1024 * 1024

  datatype Gate = NoFile | NotAnImage | TooLarge | Accepted

  /** The checks before an upload, in order: a file must be chosen, its type must start
      with `image/`, and it may be at most 5 MiB. */
  function CheckAvatarFile(file: Option<FileInfo>): (r: Gate)
    ensures r == NoFile <==> file.None?
    ensures r == NotAnImage <==> file.Some? && !StartsWith(file.value.mimeType, "image/")
    ensures r == TooLarge <==> file.Some? && StartsWith(file.value.mimeType, "image/") && file.value.size > MaxAvatarBytes
    ensures r == Accepted <==> file.Some? && StartsWith(file.value.mimeType, "image/") && file.value.size <= MaxAvatarBytes
  {
    if file.None? then NoFile
    else if !StartsWith(file.value.mimeType, "image/") then NotAnImage
    else if file.value.size > MaxAvatarBytes then TooLarge
    else Accepted
  }

  /** The limit is inclusive: a picture of exactly 5 MiB goes through, one byte more
      does not. */
  lemma AvatarLimitInclusive(mimeType: string)
    requires StartsWith(mimeType, "image/")
    ensures CheckAvatarFile(Some(FileInfo(mimeType, 5242880))) == Accepted
    ensures CheckAvatarFile(Some(FileInfo(mimeType, 5242881))) == TooLarge
  {
  }

  /** `getSettingsAvatarUrl`: the form's avatar when it is truthy, otherwise the avatar
      `getAvatarUrl` makes for the user at 80 pixels. */
  function SettingsAvatar(backendUrl: string, form: FormData, user: SettingsUser): (r: FieldValue)
    ensures Truthy(form, "avatar_url") ==> r == form["avatar_url"]
    ensures !Truthy(form, "avatar_url") ==> r == Text(GetAvatarUrl(backendUrl, Some(user.profile), 80))
  {
    if Truthy(form, "avatar_url") then form["avatar_url"] else Text(GetAvatarUrl(backendUrl, Some(user.profile), 80))
  }

  /** The form after a successful upload: the avatar is the backend address followed by
      the path the server returned. */
  function Uploaded(backendUrl: string, form: FormData, path: string): (r: FormData)
    ensures r == form["avatar_url" := Text(backendUrl + path)]
  {
    form["avatar_url" := Text(backendUrl + path)]
  }

  /** After an upload the screen shows the uploaded picture. */
  lemma UploadShowsPicture(backendUrl: string, form: FormData, path: string, user: SettingsUser)
    requires backendUrl + path != []
    ensures SettingsAvatar(backendUrl, Uploaded(backendUrl, form, path), user) == Text(backendUrl + path)
  {
  }

  /** Before any edit, a user without a stored picture sees the generated avatar, and one
      with a stored picture sees it as stored. */
  lemma InitialAvatar(backendUrl: string, user: SettingsUser)
    ensures user.profile.avatarUrl.None? || user.profile.avatarUrl.value == []
            ==> SettingsAvatar(backendUrl, InitialForm(user), user) == Text(GetAvatarUrl(backendUrl, Some(user.profile), 80))
    ensures user.profile.avatarUrl.Some? && user.profile.avatarUrl.value != []
            ==> SettingsAvatar(backendUrl, InitialForm(user), user) == Text(user.profile.avatarUrl.value)
  {
  }

  class SettingsScreen {
    const backendUrl: string
    const user: SettingsUser
    var formData: FormData
    var uploading: bool

    constructor (backendUrl: string, user: SettingsUser)
      ensures this.backendUrl == backendUrl && this.user == user
      ensures formData == InitialForm(user) && !uploading
    {
      this.backendUrl := backendUrl;
      this.user := user;
      formData := InitialForm(user);
      uploading := false;
    }

    method HandleChange(name: string, value: string, isCheckbox: bool, checked: bool)
      modifies this`formData
      ensures formData == Changed(old(formData), name, value, isCheckbox, checked)
    {
      formData := formData[name := if isCheckbox then Flag(checked) else Text(value)];
    }

    /** `handleAvatarUpload` up to the request: a file that fails a check leaves the
        screen as it was; an accepted one sets `uploading`. */
    method BeginAvatarUpload(file: Option<FileInfo>) returns (gate: Gate)
      modifies this`uploading
      ensures gate == CheckAvatarFile(file)
      ensures uploading == (gate == Accepted || old(uploading))
    {
      if file.None? {
        return NoFile;
      }
      if !StartsWith(file.value.mimeType, "image/") {
        return NotAnImage;
      }
      if file.value.size > MaxAvatarBytes {
        return TooLarge;
      }
      uploading := true;
      gate := Accepted;
    }

    /** The rest of `handleAvatarUpload` once the upload settles (`None` for a failure):
        success puts the new address in the form, and `uploading` ends false either
        way. */
    method AvatarUploadSettled(path: Option<string>)
      modifies this`formData, this`uploading
      ensures !uploading
      ensures path.Some? ==> formData == Uploaded(backendUrl, old(formData), path.value)
      ensures path.None? ==> formData == old(formData)
    {
      if path.Some? {
        var avatarUrl := backendUrl + path.value;
        formData := formData["avatar_url" := Text(avatarUrl)];
      }
      uploading := false;
    }
  }
}
