/** Avatar addresses: a stored picture, or a generated one from the UI Avatars service
    whose background colour is picked from a fixed palette by a hash of the name. */
module AvatarUtils {
  import opened Wrappers
  import opened Text
  import opened Domain

  const Palette: seq<string> := ["3B82F6", "10B981", "F59E0B", "EF4444", "8B5CF6",
                                 "F97316", "06B6D4", "EC4899", "84CC16", "6366F1"]

  const TwoTo32 := 0x1_0000_0000
  const TwoTo31 := 0x8000_0000

  /** ECMAScript's ToInt32 on an integral number: wrap into the signed 32-bit range. */
  function ToInt32(x: int): (r: int)
    ensures -TwoTo31 <= r < TwoTo31
    ensures (r - x) % TwoTo32 == 0
  {
    (x + TwoTo31) % TwoTo32 - TwoTo31
  }

  /** One turn of the loop: `charCodeAt(i) + ((hash << 5) - hash)`, where the shift works
      on the 32-bit form of `hash` and the subtraction and addition do not wrap. */
  function HashStep(hash: int, unit: int): int {
    unit + (ToInt32(ToInt32(hash) * 32) - hash)
  }

  /** The hash after the loop has consumed the given code units. */
  function HashOf(units: seq<int>): int
    decreases |units|
  {
    if units == [] then 0 else HashStep(HashOf(units[..|units| - 1]), units[|units| - 1])
  }

  function Abs(x: int): nat {
    if x < 0 then -x else x
  }

  /** The colour `getBackgroundColor` picks for a name. */
  function ColourOf(name: string): (r: string)
    ensures r in Palette
  {
    Palette[Abs(HashOf(CodeUnits(name))) % |Palette|]
  }

  /** `getBackgroundColor`: the loop over the name's UTF-16 code units. */
  method GetBackgroundColor(name: string) returns (colour: string)
    ensures colour == ColourOf(name)
    ensures colour in Palette
  {
    var units := CodeUnits(name);
    var hash := 0;
    var i := 0;
    while i < |units|
      invariant 0 <= i <= |units|
      invariant hash == HashOf(units[..i])
    {
      assert units[..i + 1][..i] == units[..i];
      hash := units[i] + (ToInt32(ToInt32(hash) * 32) - hash);
      i := i + 1;
    }
    assert units[..|units|] == units;
    colour := Palette[Abs(hash) % |Palette|];
  }

  /** The empty name hashes to 0 and gets the first colour, blue; a single character
      picks the entry its code modulo 10 names: "a" (97) gets pink. */
  lemma KnownColours()
    ensures HashOf(CodeUnits("")) == 0 && ColourOf("") == "3B82F6"
    ensures HashOf(CodeUnits("a")) == 97 && ColourOf("a") == "EC4899"
  {
    assert CodeUnits("a") == [97];
    assert HashOf([97]) == HashStep(HashOf([]), 97);
  }

  /** Within one step the 32-bit shift is the only wrap: for a hash that is already a
      32-bit value below 2^26 in size, the step is `31 * hash + unit` exactly. */
  lemma SmallHashStep(hash: int, unit: int)
    requires -0x400_0000 <= hash < 0x400_0000
    ensures HashStep(hash, unit) == 31 * hash + unit
  {
    assert ToInt32(hash) == hash;
    assert ToInt32(hash * 32) == hash * 32;
  }

  function AvatarService(name: string, size: nat, colour: string, fontSize: string): string {
    "https://ui-avatars.com/api/?name=" + EncodeUriComponent(name) + "&size=" + NatToString(size)
      + "&background=" + colour + "&color=ffffff&bold=true&font-size=" + fontSize
  }

  /** The name a generated avatar shows: the display name, else the user name, else `?`;
      empty strings count as missing. */
  function AvatarName(user: Option<Profile>): (r: string)
    ensures r != []
    ensures user.Some? && user.value.displayName != [] ==> r == user.value.displayName
    ensures user.Some? && user.value.displayName == [] && user.value.username != [] ==> r == user.value.username
    ensures user.None? || (user.value.displayName == [] && user.value.username == []) ==> r == "?"
  {
    if user.Some? && user.value.displayName != [] then user.value.displayName
    else if user.Some? && user.value.username != [] then user.value.username
    else "?"
  }

  predicate HasPicture(user: Option<Profile>) {
    user.Some? && user.value.avatarUrl.Some? && user.value.avatarUrl.value != []
  }

  /** `getAvatarUrl`: a stored picture under `/api` is fetched from the backend, any other
      stored picture is used as it is, and without one the service draws the name on
      its colour. */
  function GetAvatarUrl(backendUrl: string, user: Option<Profile>, size: nat): (r: string)
    ensures HasPicture(user) && StartsWith(user.value.avatarUrl.value, "/api")
            ==> r == backendUrl + user.value.avatarUrl.value
    ensures HasPicture(user) && !StartsWith(user.value.avatarUrl.value, "/api")
            ==> r == user.value.avatarUrl.value
    ensures !HasPicture(user) ==> r == AvatarService(AvatarName(user), size, ColourOf(AvatarName(user)), "0.6")
  {
    if HasPicture(user) then
      var url := user.value.avatarUrl.value;
      if StartsWith(url, "/api") then backendUrl + url else url
    else
      var name := AvatarName(user);
      AvatarService(name, size, ColourOf(name), "0.6")
  }

  /** `getGroupAvatarUrl`: the colour comes from the group's name or "Group", the text
      drawn is the group's name or "Группа". */
  function GetGroupAvatarUrl(groupName: Option<string>, size: nat): (r: string)
    ensures groupName.Some? && groupName.value != []
            ==> r == AvatarService(groupName.value, size, ColourOf(groupName.value), "0.5")
    ensures groupName.None? || groupName.value == []
            ==> r == AvatarService("Группа", size, ColourOf("Group"), "0.5")
  {
    var named := groupName.Some? && groupName.value != [];
    AvatarService(if named then groupName.value else "Группа", size,
                  ColourOf(if named then groupName.value else "Group"), "0.5")
  }

  /** The name goes into the query string encoded, so the parameters after it are always
      the ones the service reads: the encoded name holds no `&`, `=`, `?` or `#`. */
  lemma NameStaysInItsParameter(name: string)
    ensures '&' !in EncodeUriComponent(name) && '=' !in EncodeUriComponent(name)
    ensures '?' !in EncodeUriComponent(name) && '#' !in EncodeUriComponent(name)
  {
    var e := EncodeUriComponent(name);
    forall i | 0 <= i < |e|
      ensures e[i] != '&' && e[i] != '=' && e[i] != '?' && e[i] != '#'
    {
      assert UriUnreserved(e[i]) || e[i] == '%';
    }
  }
}
