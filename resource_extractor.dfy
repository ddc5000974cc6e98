/**
 * ResourceExtractor: turns the anchors of a rendered page into resources. The HTML parser is not modelled: a
 * page is given by its URI and the values of the `href` attributes of its `<a href>` elements in document
 * order (an empty sequence when it has none).
 */
module Extraction {
  import opened Wrappers
  import opened Text
  import opened Uris
  import opened IdGenerators
  import opened Resources

  /** A rendered page: its URI and the `href` values of its anchors, in document order. */
  datatype HtmlDocument = HtmlDocument(uri: Uri, hrefs: seq<string>)

  /** `IsJavaScriptCode`: the href starts with `javascript:`, ignoring case. */
  predicate IsJavaScriptCode(href: string)
  {
    StartsWithIgnoreCase(href, "javascript:")
  }

  /** An href that yields a resource: neither white space only nor JavaScript code. */
  predicate Extractable(href: string)
    ensures Extractable(href) ==> exists i :: 0 <= i < |href| && !IsWhiteSpace(href[i])
  {
    !IsBlank(href) && !IsJavaScriptCode(href)
  }

  /** The hrefs that yield a resource, in document order. */
  function ExtractedUrls(hrefs: seq<string>): (urls: seq<string>)
    ensures |urls| <= |hrefs|
  {
    if hrefs == [] then []
    else
      var last := hrefs[|hrefs| - 1];
      ExtractedUrls(hrefs[..|hrefs| - 1]) + (if Extractable(last) then [last] else [])
  }

  /** Reading one more href extends the kept ones by that href when it is extractable. */
  lemma ExtractedUrlsStep(hrefs: seq<string>, i: nat)
    requires i < |hrefs|
    ensures ExtractedUrls(hrefs[..i + 1]) == ExtractedUrls(hrefs[..i]) + if Extractable(hrefs[i]) then [hrefs[i]] else []
  {
    assert hrefs[..i + 1][..i] == hrefs[..i];
  }

  /** Exactly the extractable hrefs are kept: no blank one and none that is JavaScript code. */
  lemma {:induction false} ExtractedUrlsAreExactly(hrefs: seq<string>, url: string)
    ensures url in ExtractedUrls(hrefs) <==> url in hrefs && Extractable(url)
  {
    if hrefs != [] {
      var prefix := hrefs[..|hrefs| - 1];
      ExtractedUrlsAreExactly(prefix, url);
      assert hrefs == prefix + [hrefs[|hrefs| - 1]];
    }
  }

  /** When every href is extractable, all of them are kept, in order. */
  lemma {:induction false} ExtractedUrlsKeepsExtractable(hrefs: seq<string>)
    requires forall i :: 0 <= i < |hrefs| ==> Extractable(hrefs[i])
    ensures ExtractedUrls(hrefs) == hrefs
  {
    if hrefs != [] {
      var prefix := hrefs[..|hrefs| - 1];
      ExtractedUrlsKeepsExtractable(prefix);
      assert hrefs == prefix + [hrefs[|hrefs| - 1]];
    }
  }

  /**
   * What the resource drawn for one href is made of: the given id, the href and the page's URI as parent, the
   * classification of that href against the page, `Uri` equal to `OriginalUri`, and not internal.
   */
  ghost predicate ResourceAsExpected(lib: UriLibrary, r: Resource, url: string, page: Uri, id: Int32)
    reads r
  {
    r.id == id && r.originalUrl == url && r.parentUri == Some(page) && r.isExtractedFromHtmlDocument &&
    r.originalUri == Classify(lib, url, Some(page)).originalUri &&
    r.statusCode == Classify(lib, url, Some(page)).statusCode &&
    r.uri == r.originalUri && !r.isInternal
  }

  /** The `k`-th extracted resource is the one drawn for the `k`-th kept href, with the `k`-th next id. */
  ghost predicate ExtractedAsExpected(lib: UriLibrary, rs: seq<Resource>, urls: seq<string>, page: Uri, firstId: Int32)
    reads rs
  {
    |rs| == |urls| &&
    forall k :: 0 <= k < |rs| ==> ResourceAsExpected(lib, rs[k], urls[k], page, Advance(firstId, k + 1))
  }

  /** Appending the resource drawn with the next id for the next kept href keeps the extraction as expected. */
  lemma ExtractedAsExpectedAppend(lib: UriLibrary, rs: seq<Resource>, urls: seq<string>, page: Uri, firstId: Int32,
                                  r: Resource, url: string)
    requires ExtractedAsExpected(lib, rs, urls, page, firstId)
    requires ResourceAsExpected(lib, r, url, page, Advance(firstId, |rs| + 1))
    ensures ExtractedAsExpected(lib, rs + [r], urls + [url], page, firstId)
  {
  }

  class ResourceExtractor {
    const incrementalIdGenerator: IncrementalIdGenerator
    const lib: UriLibrary

    constructor (incrementalIdGenerator: IncrementalIdGenerator, lib: UriLibrary)
      ensures this.incrementalIdGenerator == incrementalIdGenerator && this.lib == lib
    {
      this.incrementalIdGenerator := incrementalIdGenerator;
      this.lib := lib;
    }

    /** The resource for one kept href: the next id, the href, the page as parent, extracted from HTML. */
    method NewExtractedResource(url: string, page: Uri) returns (resource: Resource)
      modifies incrementalIdGenerator`currentId
      ensures fresh(resource)
      ensures incrementalIdGenerator.currentId == NextId(old(incrementalIdGenerator.currentId))
      ensures ResourceAsExpected(lib, resource, url, page, incrementalIdGenerator.currentId)
    {
      var id := incrementalIdGenerator.GetNext();
      resource := new Resource(lib, id, url, Some(page), true);
    }

    /** One kept href: the resource drawn for it goes to the back of the extracted ones. */
    method ExtractOne(rs: seq<Resource>, ghost urls: seq<string>, url: string, page: Uri, ghost firstId: Int32)
      returns (rs': seq<Resource>, ghost urls': seq<string>)
      requires ExtractedAsExpected(lib, rs, urls, page, firstId)
      requires incrementalIdGenerator.currentId == Advance(firstId, |rs|)
      modifies incrementalIdGenerator`currentId
      ensures urls' == urls + [url] && |rs'| == |rs| + 1 && rs'[..|rs|] == rs && fresh(rs'[|rs|])
      ensures ExtractedAsExpected(lib, rs', urls', page, firstId)
      ensures incrementalIdGenerator.currentId == Advance(firstId, |rs'|)
    {
      var resource := NewExtractedResource(url, page);
      assert ExtractedAsExpected(lib, rs, urls, page, firstId);
      ExtractedAsExpectedAppend(lib, rs, urls, page, firstId, resource, url);
      rs' := rs + [resource];
      urls' := urls + [url];
    }

    /**
     * `ExtractResourcesFrom`: a null document is an argument error; otherwise one new resource per extractable
     * href, in document order, each drawing the next id and having the page's URI as parent.
     */
    method ExtractResourcesFrom(htmlDocument: Option<HtmlDocument>) returns (r: Result<seq<Resource>>)
      modifies incrementalIdGenerator`currentId
      ensures htmlDocument.None? ==> r.Failure? && incrementalIdGenerator.currentId == old(incrementalIdGenerator.currentId)
      ensures htmlDocument.Some? ==>
        r.Success? &&
        ExtractedAsExpected(lib, r.value, ExtractedUrls(htmlDocument.value.hrefs), htmlDocument.value.uri,
          old(incrementalIdGenerator.currentId)) &&
        incrementalIdGenerator.currentId == Advance(old(incrementalIdGenerator.currentId), |r.value|)
      ensures htmlDocument.Some? ==> forall k :: 0 <= k < |r.value| ==> fresh(r.value[k])
    {
      if htmlDocument.None? {
        return Failure("ArgumentNullException: htmlDocument");
      }
      var page := htmlDocument.value.uri;
      var hrefs := htmlDocument.value.hrefs;
      ghost var firstId := incrementalIdGenerator.currentId;
      var extractedResources: seq<Resource> := [];
      ghost var urls: seq<string> := [];
      var i := 0;
      while i < |hrefs|
        invariant 0 <= i <= |hrefs|
        invariant urls == ExtractedUrls(hrefs[..i])
        invariant ExtractedAsExpected(lib, extractedResources, urls, page, firstId)
        invariant incrementalIdGenerator.currentId == Advance(firstId, |extractedResources|)
        invariant forall k :: 0 <= k < |extractedResources| ==> fresh(extractedResources[k])
      {
        var extractedUrl := hrefs[i];
        ExtractedUrlsStep(hrefs, i);
        if Extractable(extractedUrl) {
          extractedResources, urls := ExtractOne(extractedResources, urls, extractedUrl, page, firstId);
        }
        i := i + 1;
      }
      assert hrefs[..|hrefs|] == hrefs;
      r := Success(extractedResources);
    }
  }

  /** While the counter does not wrap, the ids of the extracted resources strictly increase along the output. */
  lemma ExtractedIdsIncrease(lib: UriLibrary, rs: seq<Resource>, urls: seq<string>, page: Uri, firstId: Int32,
                             i: nat, j: nat)
    requires ExtractedAsExpected(lib, rs, urls, page, firstId)
    requires i < j < |rs| && firstId + |rs| <= MaxInt32
    ensures rs[i].id < rs[j].id
  {
    IdsStrictlyIncrease(firstId, i + 1, j + 1);
  }
}
