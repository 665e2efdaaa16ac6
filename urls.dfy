/** URLs as far as the core uses them: a string identity and Foundation's path appending. */
module Urls {
  import opened Wrappers
  import opened Constants

  /** A URL, represented by its `absoluteString`. */
  datatype Url = Url(absoluteString: string)

  predicate EndsWith(s: string, suffix: string) {
    |suffix| <= |s| && s[|s| - |suffix|..] == suffix
  }

  /**
   * `appendingPathComponent`: the component follows the existing path, separated by exactly one
   * `/` (none is added when the URL already ends in one).
   */
  function AppendPathComponent(u: Url, component: string): (r: Url)
    ensures EndsWith(r.absoluteString, "/" + component)
    ensures EndsWith(u.absoluteString, "/") ==> r.absoluteString == u.absoluteString + component
    ensures !EndsWith(u.absoluteString, "/") ==> r.absoluteString == u.absoluteString + "/" + component
  {
    var s := u.absoluteString;
    if EndsWith(s, "/") then
      var p := s[..|s| - 1];
      assert s == p + "/";
      assert s + component == p + ("/" + component);
      ConcatEndsWith(p, "/" + component);
      Url(s + component)
    else
      assert s + "/" + component == s + ("/" + component);
      ConcatEndsWith(s, "/" + component);
      Url(s + "/" + component)
  }

  lemma ConcatEndsWith(s: string, suffix: string)
    ensures EndsWith(s + suffix, suffix)
  {
    assert (s + suffix)[|s|..] == suffix;
  }

  /**
   * The image address of a card: its base URL string, parsed by `parseUrl` (`URL(string:)`), with
   * the path component `<quality>.png` appended; absent when there is no base or it does not parse.
   */
  function QualityImageUrl(base: Option<string>, quality: string, parseUrl: string -> Option<Url>): (r: Option<Url>)
    ensures base.None? ==> r.None?
    ensures base.Some? ==> (r.Some? <==> parseUrl(base.value).Some?)
    ensures r.Some? ==> r.value == AppendPathComponent(parseUrl(base.value).value, quality + "." + PngExtension)
    ensures r.Some? ==> EndsWith(r.value.absoluteString, "/" + quality + ".png")
  {
    if base.None? then None
    else
      match parseUrl(base.value)
      case None => None
      case Some(u) =>
        assert "/" + (quality + "." + PngExtension) == "/" + quality + ".png";
        Some(AppendPathComponent(u, quality + "." + PngExtension))
  }
}
