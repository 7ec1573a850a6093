/**
 * The two helpers of the web client that compute something: the full URL
 * an avatar is loaded from, and the text shown for a caught error.
 */
module FrontendUtils {
  import opened Wrappers
  import opened Text

  const HttpScheme := "http://"
  const HttpsScheme := "https://"

  /** An avatar path that already names a host over HTTP or HTTPS. */
  predicate IsAbsolute(path: string) {
    StartsWith(path, HttpScheme) || StartsWith(path, HttpsScheme)
  }

  /**
   * The asset base setting: an unset or empty setting is the empty base, so
   * paths stay relative to the page.
   */
  function AssetBase(setting: Option<string>): (base: string)
    ensures setting.Some? ==> base == setting.value
    ensures setting.None? ==> base == ""
  {
    if setting.Some? then setting.value else ""
  }

  /**
   * getFullAvatarURL: null, undefined (both None) and "" give ""; an absolute
   * URL is kept; any other path is appended to the asset base.
   */
  function GetFullAvatarURL(avatarPath: Option<string>, baseSetting: Option<string>): (url: string)
    ensures avatarPath.None? || avatarPath.value == "" ==> url == ""
    ensures avatarPath.Some? && IsAbsolute(avatarPath.value) ==> url == avatarPath.value
    ensures avatarPath.Some? && avatarPath.value != "" && !IsAbsolute(avatarPath.value) ==>
      url == AssetBase(baseSetting) + avatarPath.value
  {
    if avatarPath.None? || avatarPath.value == "" then ""
    else if IsAbsolute(avatarPath.value) then avatarPath.value
    else AssetBase(baseSetting) + avatarPath.value
  }

  /** A non-empty path always ends the URL it gives, and the URL is empty only for an empty path. */
  lemma PathEndsTheUrl(path: string, baseSetting: Option<string>)
    ensures var url := GetFullAvatarURL(Some(path), baseSetting);
      |path| <= |url| && url[|url| - |path|..] == path && (url == "" <==> path == "")
  {
  }

  /** A string that starts with a prefix still does after more text is appended. */
  lemma StartsWithAppend(s: string, t: string, prefix: string)
    requires StartsWith(s, prefix)
    ensures StartsWith(s + t, prefix)
  {
    assert (s + t)[..|prefix|] == s[..|prefix|];
  }

  /**
   * With an absolute asset base (or none) every URL given is final: passing
   * it through again changes nothing.
   */
  lemma FullUrlIsIdempotent(path: Option<string>, baseSetting: Option<string>)
    requires AssetBase(baseSetting) == "" || IsAbsolute(AssetBase(baseSetting))
    ensures var url := GetFullAvatarURL(path, baseSetting);
      GetFullAvatarURL(Some(url), baseSetting) == url
  {
    if path.Some? && path.value != "" && !IsAbsolute(path.value) && AssetBase(baseSetting) != "" {
      var base := AssetBase(baseSetting);
      if StartsWith(base, HttpScheme) {
        StartsWithAppend(base, path.value, HttpScheme);
      } else {
        StartsWithAppend(base, path.value, HttpsScheme);
      }
    } else if path.Some? && path.value != "" && !IsAbsolute(path.value) {
      assert AssetBase(baseSetting) + path.value == path.value;
    }
  }

  /** Strings whose first characters differ do not start alike. */
  lemma FirstCharDiffers(s: string, prefix: string)
    requires s != "" && prefix != "" && s[0] != prefix[0]
    ensures !StartsWith(s, prefix)
  {
    if |prefix| <= |s| {
      assert s[..|prefix|][0] == s[0];
    }
  }

  /**
   * With a non-empty base, a URL that is still relative after one pass gets
   * the base added again on a second pass; a root-relative base such as
   * "/assets" always does so.
   */
  lemma RelativeBaseGrowsAgain(path: string, base: string)
    requires path != "" && !IsAbsolute(path) && base != ""
    ensures var once := GetFullAvatarURL(Some(path), Some(base));
      var twice := GetFullAvatarURL(Some(once), Some(base));
      (!IsAbsolute(once) <==> twice == base + once)
      && (base[0] == '/' ==> twice == base + base + path)
  {
    var once := GetFullAvatarURL(Some(path), Some(base));
    assert once == base + path;
    if IsAbsolute(once) {
      assert |base + once| > |once|;
    }
    if base[0] == '/' {
      assert once[0] == '/';
      FirstCharDiffers(once, HttpScheme);
      FirstCharDiffers(once, HttpsScheme);
      assert base + once == base + base + path;
    }
  }

  /** What a catch block may receive: an Error with its message, or any other value. */
  datatype Thrown = ErrorInstance(message: string) | OtherValue

  /** errorExtract: the message of an Error, the default text for anything else. */
  function ErrorExtract(error: Thrown, defaultMsg: string): (msg: string)
    ensures error.ErrorInstance? ==> msg == error.message
    ensures error.OtherValue? ==> msg == defaultMsg
  {
    if error.ErrorInstance? then error.message else defaultMsg
  }
}
