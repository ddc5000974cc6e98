/**
 * Configurations: the settings the bot is started with, read from a JSON object whose values are strings (the
 * JSON parsing itself is not modelled: the object is a map from token names to their values). Also host
 * localisation, the rewriting of URIs aimed at the configured remote host to the start URI's host.
 */
module Configuration {
  import opened Wrappers
  import opened Text
  import opened Uris

  datatype Configurations = Configurations(
    startUri: Uri,
    includeNonHttpUrlsInReport: bool,
    includeRedirectUrlsInReport: bool,
    remoteHost: string,
    takeScreenshotEvidence: bool,
    useHeadlessWebBrowsers: bool,
    useIncognitoWebBrowser: bool)

  /** The parsed JSON object: token name to string value; a missing token is a missing key. */
  type Tokens = map<string, string>

  /** The value of a token, `string.Empty` when it is missing (`?? string.Empty`). */
  function TokenOrEmpty(tokens: Tokens, name: string): string
  {
    if name in tokens then tokens[name] else ""
  }

  /**
   * `CreateStartUri`: the `StartUri` token (empty when missing) must be an absolute URI, else `new Uri` throws, and
   * its lower-cased scheme must be `http` or `https`, else the scheme is not supported.
   */
  function CreateStartUri(lib: UriLibrary, tokens: Tokens): (r: Result<Uri>)
    ensures r.Success? <==>
      lib.parse(TokenOrEmpty(tokens, "StartUri")).Absolute? &&
      ToLower(lib.parse(TokenOrEmpty(tokens, "StartUri")).uri.scheme) in {"http", "https"}
    ensures r.Success? ==> r.value == lib.parse(TokenOrEmpty(tokens, "StartUri")).uri
  {
    match lib.parse(TokenOrEmpty(tokens, "StartUri"))
    case Absolute(startUri) =>
      var startUriScheme := ToLower(startUri.scheme);
      if startUriScheme != "http" && startUriScheme != "https" then
        Failure("InvalidOperationException: Uri scheme [" + startUriScheme + "] is not supported.")
      else Success(startUri)
    case _ => Failure("UriFormatException: the start URI is not an absolute URI")
  }

  /**
   * The `(bool)` conversion of a string token: `true` or `false` in any letter case; anything else is a format
   * error. A missing token is `false` (`?? false`).
   */
  function FlagOrFalse(tokens: Tokens, name: string): (r: Result<bool>)
    ensures name !in tokens ==> r == Success(false)
    ensures name in tokens && r.Success? ==> ToLower(tokens[name]) == if r.value then "true" else "false"
    ensures name in tokens && ToLower(tokens[name]) in {"true", "false"} ==> r.Success?
  {
    if name !in tokens then Success(false)
    else if ToLower(tokens[name]) == "true" then Success(true)
    else if ToLower(tokens[name]) == "false" then Success(false)
    else Failure("FormatException: String was not recognized as a valid Boolean.")
  }

  /** `RemoteHost`: the token lower-cased, `"_"` when missing, empty or white space. */
  function RemoteHostOf(tokens: Tokens): (host: string)
    ensures forall i :: 0 <= i < |host| ==> !IsUpperAscii(host[i])
    ensures !IsBlank(host)
    ensures IsBlank(TokenOrEmpty(tokens, "RemoteHost")) ==> host == "_"
    ensures !IsBlank(TokenOrEmpty(tokens, "RemoteHost")) ==> host == ToLower(TokenOrEmpty(tokens, "RemoteHost"))
  {
    var remoteHost := ToLower(TokenOrEmpty(tokens, "RemoteHost"));
    ToLowerKeepsBlankness(TokenOrEmpty(tokens, "RemoteHost"));
    assert !IsWhiteSpace("_"[0]);
    if IsBlank(remoteHost) then "_" else remoteHost
  }

  /**
   * The `Configurations(string)` constructor on a parsed object: the start URI first, then the two report flags,
   * then the remote host; the first error met is the one raised.
   */
  function FromTokens(lib: UriLibrary, tokens: Tokens): (r: Result<Configurations>)
    ensures r.Success? ==> CreateStartUri(lib, tokens).Success? && !IsBlank(r.value.remoteHost)
    ensures r.Success? ==> r.value.takeScreenshotEvidence && r.value.useHeadlessWebBrowsers && r.value.useIncognitoWebBrowser
  {
    match CreateStartUri(lib, tokens)
    case Failure(e) => Failure(e)
    case Success(startUri) =>
      match FlagOrFalse(tokens, "IncludeNonHttpUrlsInReport")
      case Failure(e) => Failure(e)
      case Success(includeNonHttpUrlsInReport) =>
        match FlagOrFalse(tokens, "IncludeRedirectUrlsInReport")
        case Failure(e) => Failure(e)
        case Success(includeRedirectUrlsInReport) =>
          Success(Configurations(startUri, includeNonHttpUrlsInReport, includeRedirectUrlsInReport,
            RemoteHostOf(tokens), true, true, true))
  }

  /**
   * Construction succeeds exactly when the start URI is supported and both flags convert; the result then has
   * that start URI, the flags converted, the normalised remote host, and the three fixed options switched on.
   */
  lemma FromTokensIsExactly(lib: UriLibrary, tokens: Tokens)
    ensures FromTokens(lib, tokens).Success? <==>
      CreateStartUri(lib, tokens).Success? && FlagOrFalse(tokens, "IncludeNonHttpUrlsInReport").Success? &&
      FlagOrFalse(tokens, "IncludeRedirectUrlsInReport").Success?
    ensures FromTokens(lib, tokens).Success? ==>
      var c := FromTokens(lib, tokens).value;
      c.startUri == CreateStartUri(lib, tokens).value &&
      c.includeNonHttpUrlsInReport == FlagOrFalse(tokens, "IncludeNonHttpUrlsInReport").value &&
      c.includeRedirectUrlsInReport == FlagOrFalse(tokens, "IncludeRedirectUrlsInReport").value &&
      c.remoteHost == RemoteHostOf(tokens) &&
      c.takeScreenshotEvidence && c.useHeadlessWebBrowsers && c.useIncognitoWebBrowser
    ensures CreateStartUri(lib, tokens).Failure? ==> FromTokens(lib, tokens) == Failure(CreateStartUri(lib, tokens).error)
  {
  }

  /** A configuration object that gives only a supported start URI has both report flags off and host `"_"`. */
  lemma DefaultsWhenOnlyStartUriIsGiven(lib: UriLibrary, startUrl: string)
    requires CreateStartUri(lib, map["StartUri" := startUrl]).Success?
    ensures FromTokens(lib, map["StartUri" := startUrl]).Success?
    ensures var c := FromTokens(lib, map["StartUri" := startUrl]).value;
      !c.includeNonHttpUrlsInReport && !c.includeRedirectUrlsInReport && c.remoteHost == "_"
  {
    var tokens := map["StartUri" := startUrl];
    assert "IncludeNonHttpUrlsInReport" !in tokens && "IncludeRedirectUrlsInReport" !in tokens;
    assert TokenOrEmpty(tokens, "RemoteHost") == "";
  }

  // ----- Host localisation -----

  /**
   * `Localize`: a null URI is an argument error; a URI whose host is the configured remote host gets the start
   * URI's host; any other is returned as it is.
   */
  function Localize(configurations: Configurations, uri: Option<Uri>): (r: Result<Uri>)
    ensures uri.None? <==> r.Failure?
    ensures uri.Some? ==>
      r.value.scheme == uri.value.scheme && r.value.path == uri.value.path && r.value.fragment == uri.value.fragment
    ensures uri.Some? && uri.value.host != configurations.remoteHost ==> r.value == uri.value
    ensures uri.Some? && uri.value.host == configurations.remoteHost ==> r.value.host == configurations.startUri.host
  {
    if uri.None? then Failure("ArgumentNullException: uri")
    else if uri.value.host == configurations.remoteHost then Success(uri.value.(host := configurations.startUri.host))
    else Success(uri.value)
  }

  /** Localising twice is localising once, and afterwards the remote host only remains if it is the start host. */
  lemma LocalizeIsIdempotent(configurations: Configurations, uri: Uri)
    ensures Localize(configurations, Some(Localize(configurations, Some(uri)).value)) == Localize(configurations, Some(uri))
    ensures Localize(configurations, Some(uri)).value.host == configurations.remoteHost ==>
      configurations.startUri.host == configurations.remoteHost
  {
  }

  /**
   * The theory with a matching host: with start URI `http://192.168.1.2` and remote host `www.helix.com`,
   * `http://www.helix.com/anything` becomes `http://192.168.1.2/anything`.
   */
  lemma LocalizeReplacesRemoteHost(lib: UriLibrary)
    requires lib.parse("http://192.168.1.2") == Absolute(Uri("http", "192.168.1.2", "/", ""))
    ensures var c := FromTokens(lib, map["StartUri" := "http://192.168.1.2", "RemoteHost" := "www.helix.com"]);
      c.Success? &&
      Localize(c.value, Some(Uri("http", "www.helix.com", "/anything", ""))) ==
        Success(Uri("http", "192.168.1.2", "/anything", ""))
  {
    var tokens := map["StartUri" := "http://192.168.1.2", "RemoteHost" := "www.helix.com"];
    assert TokenOrEmpty(tokens, "StartUri") == "http://192.168.1.2";
    assert ToLower("http") == "http";
    assert "IncludeNonHttpUrlsInReport" !in tokens && "IncludeRedirectUrlsInReport" !in tokens;
    assert TokenOrEmpty(tokens, "RemoteHost") == "www.helix.com";
    assert ToLower("www.helix.com") == "www.helix.com";
    assert !IsWhiteSpace("www.helix.com"[0]);
  }

  /**
   * The theory with a different host: with start URI `http://www.sanity.com` and remote host `www.helix.com`,
   * `http://www.sanity.com/anything` is left as it is.
   */
  lemma LocalizeKeepsOtherHosts(lib: UriLibrary)
    requires lib.parse("http://www.sanity.com") == Absolute(Uri("http", "www.sanity.com", "/", ""))
    ensures var c := FromTokens(lib, map["StartUri" := "http://www.sanity.com", "RemoteHost" := "www.helix.com"]);
      c.Success? &&
      Localize(c.value, Some(Uri("http", "www.sanity.com", "/anything", ""))) ==
        Success(Uri("http", "www.sanity.com", "/anything", ""))
  {
    var tokens := map["StartUri" := "http://www.sanity.com", "RemoteHost" := "www.helix.com"];
    assert TokenOrEmpty(tokens, "StartUri") == "http://www.sanity.com";
    assert ToLower("http") == "http";
    assert "IncludeNonHttpUrlsInReport" !in tokens && "IncludeRedirectUrlsInReport" !in tokens;
    assert TokenOrEmpty(tokens, "RemoteHost") == "www.helix.com";
    assert ToLower("www.helix.com") == "www.helix.com";
    assert !IsWhiteSpace("www.helix.com"[0]);
    assert "www.sanity.com" != "www.helix.com";
  }
}
