/** frontend/src/pages/Profile.tsx: the user's profile. `uploadAvatar` checks the picked
    file, stores it under the user's folder and shows its public address; `updateProfile`
    saves the username and avatar address; the avatar falls back to an initial. */
module Profile {
  import opened Wire
  import opened Strings

  /** Largest avatar accepted: 2 MB. */
  const MaxAvatarSize := 2 * 1024 * 1024

  /** Index of the last '.' in `s`, if any. */
  function LastDot(s: string): (i: Option<nat>)
    ensures i.None? ==> forall j :: 0 <= j < |s| ==> s[j] != '.'
    ensures i.Some? ==> i.value < |s| && s[i.value] == '.' && forall j :: i.value < j < |s| ==> s[j] != '.'
  {
    if s == [] then None
    else if s[|s| - 1] == '.' then Some(|s| - 1)
    else LastDot(s[..|s| - 1])
  }

  /** `file.name.split('.').pop()`: the text after the last '.', or the whole name when it
      has none. */
  function FileExtension(name: string): (ext: string)
    ensures '.' !in ext
    ensures LastDot(name).None? ==> ext == name
    ensures LastDot(name).Some? ==> ext == name[LastDot(name).value + 1..]
  {
    match LastDot(name)
    case None => name
    case Some(i) => name[i + 1..]
  }

  /** `${session.user.id}/${Math.random()}.${fileExt}`; `token` is the decimal text of the
      random number. The file sits in the user's folder and ends in '.' and the extension. */
  function StoragePath(userId: string, token: string, ext: string): (path: string)
    ensures |path| == |userId| + |token| + |ext| + 2
    ensures path[..|userId|] == userId && path[|userId|] == '/'
    ensures path[|userId| + 1..|userId| + 1 + |token|] == token
    ensures path[|path| - |ext|..] == ext && path[|path| - |ext| - 1] == '.'
  {
    userId + "/" + token + "." + ext
  }

  /** The extension of a stored file's path is the extension it was stored under, whatever
      dots the user id or the random token contain. */
  lemma StoragePathExtension(userId: string, token: string, ext: string)
    requires '.' !in ext
    ensures FileExtension(StoragePath(userId, token, ext)) == ext
  {
    var path := StoragePath(userId, token, ext);
    var k := |userId| + 1 + |token|;
    assert path[k] == '.';
    assert forall j :: k < j < |path| ==> path[j] == ext[j - k - 1];
    var i := LastDot(path);
    assert i.Some? && i.value == k;
  }

  /** `username?.charAt(0)?.toUpperCase() || 'U'`. */
  function FallbackInitial(username: string): (initial: string)
    ensures |initial| == 1
    ensures username == "" ==> initial == "U"
    ensures username != "" && 'a' <= username[0] <= 'z' ==> 'A' <= initial[0] <= 'Z'
    ensures username != "" ==> initial[0] == ToUpperAscii(username[0])
  {
    if username == "" then "U" else [ToUpperAscii(username[0])]
  }

  /** The picked file: its name and size in bytes. */
  datatype AvatarFile = AvatarFile(name: string, size: nat)

  /** The row of `profiles` as `fetchProfile` reads it. */
  datatype ProfileRow = ProfileRow(username: Option<string>, avatarUrl: Option<string>)

  /** What `updateProfile` writes: the user's id, then the two fields. */
  datatype ProfileUpdate = ProfileUpdate(userId: string, username: string, avatarUrl: string)

  /** The page's state. */
  class ProfilePage {
    var loading: bool
    var username: string
    var avatarUrl: string
    var uploading: bool

    constructor ()
      ensures !loading && username == "" && avatarUrl == "" && !uploading
    {
      loading, username, avatarUrl, uploading := false, "", "", false;
    }

    /** The Save button is disabled while `loading`. */
    function SaveEnabled(): (enabled: bool)
      reads this
      ensures enabled <==> !loading
    {
      !loading
    }

    /** The avatar input and its button are disabled while `uploading`. */
    function UploadEnabled(): (enabled: bool)
      reads this
      ensures enabled <==> !uploading
    {
      !uploading
    }

    /** `fetchProfile`: without a session, go to "/auth"; with a row, show its fields, an
        empty or null one as "". */
    method FetchProfile(session: Option<string>, row: Option<ProfileRow>) returns (navigate: Option<string>)
      modifies this
      ensures session.None? ==> navigate == Some("/auth")
      ensures session.Some? ==> navigate.None?
      ensures session.Some? && row.Some? ==>
        username == OrElse(row.value.username, "") && avatarUrl == OrElse(row.value.avatarUrl, "")
      ensures session.None? || row.None? ==> username == old(username) && avatarUrl == old(avatarUrl)
      ensures loading == old(loading) && uploading == old(uploading)
    {
      if session.None? {
        return Some("/auth");
      }
      navigate := None;
      if row.Some? {
        username := OrElse(row.value.username, "");
        avatarUrl := OrElse(row.value.avatarUrl, "");
      }
    }

    /** `updateProfile`. `loading` is raised first; without a session the method returns
        with it still raised, so Save stays disabled. */
    method UpdateProfile(session: Option<string>, updateError: bool) returns (written: Option<ProfileUpdate>)
      modifies this
      ensures session.None? ==> loading && written.None? && !SaveEnabled()
      ensures session.Some? ==> !loading && written == Some(ProfileUpdate(session.value, username, avatarUrl))
      ensures session.Some? ==> SaveEnabled()
      ensures username == old(username) && avatarUrl == old(avatarUrl) && uploading == old(uploading)
    {
      loading := true;
      if session.None? {
        return None;
      }
      written := Some(ProfileUpdate(session.value, username, avatarUrl));
      loading := false;
    }

    /** `uploadAvatar`. `file` is the first picked file, `token` the text of `Math.random()`,
        `uploadError` whether storage refused the upload, and `publicUrlOf` storage's public
        address for a path. `uploaded` is the path sent to storage, if any. */
    method UploadAvatar(session: Option<string>, file: Option<AvatarFile>, token: string, uploadError: bool,
                        publicUrlOf: string -> string)
      returns (uploaded: Option<string>, tooLarge: bool)
      modifies this
      // The `finally` clears the flag on every path.
      ensures !uploading
      ensures UploadEnabled()
      ensures tooLarge <==> session.Some? && file.Some? && file.value.size > MaxAvatarSize
      // Only a signed-in user's file of at most 2 MB is sent, under the user's folder.
      ensures uploaded.Some? <==> session.Some? && file.Some? && file.value.size <= MaxAvatarSize
      ensures uploaded.Some? ==>
        uploaded.value == StoragePath(session.value, token, FileExtension(file.value.name))
      // The shown avatar changes only after an upload storage accepted.
      ensures uploaded.Some? && !uploadError ==> avatarUrl == publicUrlOf(uploaded.value)
      ensures uploaded.None? || uploadError ==> avatarUrl == old(avatarUrl)
      ensures username == old(username) && loading == old(loading)
    {
      uploading := true;
      uploaded, tooLarge := None, false;
      if session.Some? && file.Some? {
        if file.value.size > MaxAvatarSize {
          tooLarge := true;
        } else {
          var path := StoragePath(session.value, token, FileExtension(file.value.name));
          uploaded := Some(path);
          if !uploadError {
            avatarUrl := publicUrlOf(path);
          }
        }
      }
      uploading := false;
    }
  }
}
