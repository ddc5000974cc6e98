/**
 * LegacyResourceCollector: the browser-driven collector of raw resources. What the model keeps are its decisions:
 * which anchors' `href` values are collected, which proxied responses are captured, and that its teardown runs
 * at most once. The browser's elements, the proxy's sessions and the events raised are data here.
 */
module LegacyCollection {
  import opened Wrappers
  import opened Text
  import opened Uris
  import opened CrawlerMemory

  // ----- Anchors -----

  /** `hrefSchemeIsSupported`: the href starts, ignoring case, with `http`, `https` or `/`. */
  predicate HrefSchemeIsSupported(href: string)
    ensures HrefSchemeIsSupported(href) ==> |href| >= 1 && href[0] in {'h', 'H', '/'}
  {
    StartsWithIgnoreCaseHead(href, "http");
    StartsWithIgnoreCaseHead(href, "https");
    StartsWithIgnoreCaseHead(href, "/");
    StartsWithIgnoreCase(href, "http") || StartsWithIgnoreCase(href, "https") || StartsWithIgnoreCase(href, "/")
  }

  /** The `https` test adds nothing: an href is accepted exactly when it starts with `http` or `/`, ignoring case. */
  lemma HrefSchemeIsSupportedIffHttpOrSlash(href: string)
    ensures HrefSchemeIsSupported(href) <==> StartsWithIgnoreCase(href, "http") || StartsWithIgnoreCase(href, "/")
  {
    if StartsWithIgnoreCase(href, "https") {
      assert "https" == "http" + "s";
      StartsWithIgnoreCaseShorter(href, "http", "s");
    }
  }

  /** The attribute values that are neither null nor white space, in document order. */
  function NonBlank(attributes: seq<Option<string>>): (urls: seq<string>)
    ensures |urls| <= |attributes|
  {
    if attributes == [] then []
    else
      var last := attributes[|attributes| - 1];
      NonBlank(attributes[..|attributes| - 1]) + (if last.Some? && !IsBlank(last.value) then [last.value] else [])
  }

  /** `NonBlank` keeps exactly the non-null, non-white-space values. */
  lemma {:induction false} NonBlankIsExactly(attributes: seq<Option<string>>, url: string)
    ensures url in NonBlank(attributes) <==> Some(url) in attributes && !IsBlank(url)
  {
    if attributes != [] {
      var prefix := attributes[..|attributes| - 1];
      NonBlankIsExactly(prefix, url);
      assert attributes == prefix + [attributes[|attributes| - 1]];
    }
  }

  /**
   * `TryGetUrls` on one snapshot of the page's elements: the value of the attribute of each element, kept when it
   * is neither null nor white space.
   */
  method TryGetUrls(attributes: seq<Option<string>>) returns (urls: seq<string>)
    ensures urls == NonBlank(attributes)
  {
    urls := [];
    var i := 0;
    while i < |attributes|
      invariant 0 <= i <= |attributes|
      invariant urls == NonBlank(attributes[..i])
    {
      var url := attributes[i];
      assert attributes[..i + 1][..i] == attributes[..i];
      if url.Some? && !IsBlank(url.value) {
        urls := urls + [url.value];
      }
      i := i + 1;
    }
    assert attributes[..|attributes|] == attributes;
  }

  /** The raw resources `CollectNewRawResourcesFrom` raises, in order: one per accepted href. */
  function CollectedRawResources(parentUri: Uri, hrefs: seq<string>): (rs: seq<RawResource>)
    ensures |rs| <= |hrefs|
  {
    if hrefs == [] then []
    else
      var last := hrefs[|hrefs| - 1];
      CollectedRawResources(parentUri, hrefs[..|hrefs| - 1]) +
        (if HrefSchemeIsSupported(last) then [RawResource(Some(parentUri), last, None)] else [])
  }

  /** A raw resource is raised exactly for each accepted href, with the parent's URI as its parent. */
  lemma {:induction false} CollectedRawResourcesAreExactly(parentUri: Uri, hrefs: seq<string>, r: RawResource)
    ensures r in CollectedRawResources(parentUri, hrefs) <==>
      r.url in hrefs && HrefSchemeIsSupported(r.url) && r.parentUri == Some(parentUri) && r.httpStatusCode.None?
  {
    if hrefs != [] {
      var prefix := hrefs[..|hrefs| - 1];
      CollectedRawResourcesAreExactly(parentUri, prefix, r);
      assert hrefs == prefix + [hrefs[|hrefs| - 1]];
    }
  }

  // ----- Network traffic -----

  /** The part of a proxied request the collector reads; `OriginalUrl` is taken as already parsed. */
  datatype Request = Request(httpMethod: string, originalUri: Uri, url: string)

  /** The part of a proxied response the collector reads; a null content type is `None`. */
  datatype Response = Response(contentType: Option<string>, statusCode: int)

  /** The content-type prefixes of the responses worth capturing: style sheets, media, fonts and scripts. */
  const CapturedContentTypes: seq<string> := [
    "text/css", "image/", "audio/", "video/", "font/", "application/javascript", "application/ecmascript"]

  /** `CaptureNetworkTraffic`: the raw resource raised for one proxied exchange, if any. */
  function Capture(request: Request, response: Response): (c: Option<RawResource>)
    ensures response.contentType.None? ==> c.None?
    ensures c.Some? ==> ToUpper(request.httpMethod) == "GET" && c.value.httpStatusCode == Some(response.statusCode)
  {
    if response.contentType.None? then None
    else
      var contentType := response.contentType.value;
      var isNotGetRequest := ToUpper(request.httpMethod) != "GET";
      var isNotCss := !StartsWithIgnoreCase(contentType, "text/css");
      var isNotImage := !StartsWithIgnoreCase(contentType, "image/");
      var isNotAudio := !StartsWithIgnoreCase(contentType, "audio/");
      var isNotVideo := !StartsWithIgnoreCase(contentType, "video/");
      var isNotFont := !StartsWithIgnoreCase(contentType, "font/");
      var isNotJavaScript := !StartsWithIgnoreCase(contentType, "application/javascript") &&
                             !StartsWithIgnoreCase(contentType, "application/ecmascript");
      if isNotGetRequest || (isNotCss && isNotFont && isNotJavaScript && isNotImage && isNotAudio && isNotVideo) then None
      else Some(RawResource(Some(request.originalUri), request.url, Some(response.statusCode)))
  }

  /**
   * A `GET` exchange whose response's content type starts, ignoring case, with one of `CapturedContentTypes` is
   * captured, carrying the request's original URI as parent, its URL and the response's status; nothing else is.
   */
  lemma CaptureIsExactly(request: Request, response: Response)
    ensures Capture(request, response).Some? <==>
      response.contentType.Some? && ToUpper(request.httpMethod) == "GET" &&
      exists i :: 0 <= i < |CapturedContentTypes| && StartsWithIgnoreCase(response.contentType.value, CapturedContentTypes[i])
    ensures Capture(request, response).Some? ==>
      Capture(request, response).value == RawResource(Some(request.originalUri), request.url, Some(response.statusCode))
  {
    if response.contentType.Some? {
      var contentType := response.contentType.value;
      if StartsWithIgnoreCase(contentType, "text/css") { assert StartsWithIgnoreCase(contentType, CapturedContentTypes[0]); }
      if StartsWithIgnoreCase(contentType, "image/") { assert StartsWithIgnoreCase(contentType, CapturedContentTypes[1]); }
      if StartsWithIgnoreCase(contentType, "audio/") { assert StartsWithIgnoreCase(contentType, CapturedContentTypes[2]); }
      if StartsWithIgnoreCase(contentType, "video/") { assert StartsWithIgnoreCase(contentType, CapturedContentTypes[3]); }
      if StartsWithIgnoreCase(contentType, "font/") { assert StartsWithIgnoreCase(contentType, CapturedContentTypes[4]); }
      if StartsWithIgnoreCase(contentType, "application/javascript") {
        assert StartsWithIgnoreCase(contentType, CapturedContentTypes[5]);
      }
      if StartsWithIgnoreCase(contentType, "application/ecmascript") {
        assert StartsWithIgnoreCase(contentType, CapturedContentTypes[6]);
      }
    }
  }

  // ----- Teardown -----

  class LegacyResourceCollector {
    /** `_disposed`. */
    var disposed: bool
    /** How many times the browser and the proxy have been shut down. */
    var teardowns: nat

    /** Teardown has happened exactly when `_disposed` is set, and at most once. */
    ghost predicate Valid()
      reads this
    {
      teardowns == if disposed then 1 else 0
    }

    constructor ()
      ensures Valid() && !disposed
    {
      disposed := false;
      teardowns := 0;
    }

    /** `ReleaseUnmanagedResources`: the first call tears down, every later call does nothing. */
    method ReleaseUnmanagedResources()
      requires Valid()
      modifies this
      ensures Valid() && disposed
      ensures teardowns == 1
      ensures old(disposed) ==> teardowns == old(teardowns)
    {
      if disposed {
        return;
      }
      disposed := true;
      teardowns := teardowns + 1;
    }

    /** `Dispose`: releases the unmanaged resources. */
    method Dispose()
      requires Valid()
      modifies this
      ensures Valid() && disposed && teardowns == 1
    {
      ReleaseUnmanagedResources();
    }
  }
}
