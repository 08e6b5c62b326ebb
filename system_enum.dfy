/** The operating-system classifier of the command line (SystemEnum.getPlatform). The value of
    the `os.name` property is taken as a parameter. */
module Platforms {
  import opened Text

  datatype SystemKind = Windows | UnixLike | Unknown

  predicate HasUnixKeyword(lower: string) {
    Contains(lower, "linux") || Contains(lower, "unix") || Contains(lower, "darwin") || Contains(lower, "mac")
  }

  /** Lower-cases the name, then tests for "windows" before the unix-like keywords. */
  function GetPlatform(osName: string): SystemKind {
    var lower := ToLower(osName);
    if Contains(lower, "windows") then Windows
    else if HasUnixKeyword(lower) then UnixLike
    else Unknown
  }

  /** The three outcomes, each characterised by the keywords found in the lower-cased name. */
  lemma GetPlatformCases(osName: string)
    ensures GetPlatform(osName) == Windows <==> Contains(ToLower(osName), "windows")
    ensures GetPlatform(osName) == UnixLike <==>
      !Contains(ToLower(osName), "windows") && HasUnixKeyword(ToLower(osName))
    ensures GetPlatform(osName) == Unknown <==>
      !Contains(ToLower(osName), "windows") && !HasUnixKeyword(ToLower(osName))
  {
  }

  /** The classification ignores case: upper- or lower-casing the name first changes nothing. */
  lemma GetPlatformIgnoresCase(osName: string)
    ensures GetPlatform(ToLower(osName)) == GetPlatform(osName)
    ensures GetPlatform(ToUpper(osName)) == GetPlatform(osName)
  {
    ToLowerIdempotent(osName);
    ToLowerOfUpper(osName);
  }

  /** "windows", in any case and anywhere in the name, wins over every unix-like keyword. */
  lemma WindowsAnywhere(p: string, w: string, q: string)
    requires ToLower(w) == "windows"
    ensures GetPlatform(p + w + q) == Windows
  {
    ToLowerConcat(p + w, q);
    ToLowerConcat(p, w);
    ContainsInside(ToLower(p), "windows", ToLower(q));
  }

  /** A unix-like keyword, in any case and anywhere in the name, gives UnixLike unless
      "windows" also occurs. */
  lemma UnixKeywordAnywhere(p: string, k: string, q: string)
    requires ToLower(k) in ["linux", "unix", "darwin", "mac"]
    requires !Contains(ToLower(p + k + q), "windows")
    ensures GetPlatform(p + k + q) == UnixLike
  {
    ToLowerConcat(p + k, q);
    ToLowerConcat(p, k);
    ContainsInside(ToLower(p), ToLower(k), ToLower(q));
  }
}
