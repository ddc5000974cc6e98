/**
 * Memory: the crawler's shared bookkeeping. A register of URL strings already scheduled for verification, three
 * bounded FIFO queues (raw resources to verify, URIs to render, HTML documents to extract) and the crawler's
 * admission state. The register is keyed on URL strings cut at their first `#`.
 *
 * `BlockingCollection` would block a producer on a full queue and a consumer on an empty one until cancellation;
 * here such an add is refused and such a take fails, and the cancellation token is a flag.
 */
module CrawlerMemory {
  import opened Wrappers
  import opened Text
  import opened Uris

  /** The bound of each of the three queues. */
  const Capacity := 1000

  /**
   * A URL found in a page, with the URI of the page it was found in (none for the start URL) and, for a URL
   * captured from network traffic, the status of its response (none when unset).
   */
  datatype RawResource = RawResource(parentUri: Option<Uri>, url: string, httpStatusCode: Option<int>)

  /** A rendered page waiting for its links to be extracted. */
  datatype HtmlDocument = HtmlDocument(uri: Uri, text: string)

  datatype CrawlerState = Unknown | Ready | Working | Paused | Stopping

  /**
   * The moves `TryTransitTo` allows: to `Ready` only from `Stopping`, to `Working` from `Ready` or `Paused`,
   * to `Stopping` from `Working` or `Paused`, to `Paused` only from `Working`.
   */
  const AllowedMoves: set<(CrawlerState, CrawlerState)> := {
    (Stopping, Ready), (Ready, Working), (Paused, Working), (Working, Stopping), (Paused, Stopping), (Working, Paused)}

  /** The key under which a URL is registered: the string before its first `#`. */
  function UrlKey(url: string): (k: string)
    ensures '#' !in k && StartsWith(url, k)
    ensures k == url <==> '#' !in url
  {
    CutAtHash(url)
  }

  /** Registering a key is idempotent: a key is already its own key. */
  lemma {:induction false} UrlKeyIdempotent(url: string)
    ensures UrlKey(UrlKey(url)) == UrlKey(url)
  {
  }

  /** The register entry the constructor makes for the start URI, as written: its `AbsoluteUri`, fragment kept. */
  function SeedKeyAsWritten(startUri: Uri): string
  {
    AbsoluteUri(startUri)
  }

  /**
   * As written, a start URI with a fragment is registered under a key `Memorize` never looks up, so the start URL
   * found again in a page (here with the very same fragment) is queued a second time.
   */
  lemma SeedReadmittedAsWritten()
    ensures var startUri := Uri("http", "example.com", "/", "#top");
      UrlKey(AbsoluteUri(startUri)) !in {SeedKeyAsWritten(startUri)}
  {
    var startUri := Uri("http", "example.com", "/", "#top");
    var head := "http" + "://" + "example.com" + "/";
    assert AbsoluteUri(startUri) == head + "#top";
    assert '#' !in head;
    CutAtHashOfConcat(head, "#top");
  }

  /**
   * The corrected register entry for the start URI: its `AbsoluteUri` cut at the first `#`, the key `Memorize`
   * looks up, so that the start URL is never queued twice.
   */
  function SeedKey(startUri: Uri): (k: string)
    ensures '#' !in k && StartsWith(AbsoluteUri(startUri), k)
  {
    UrlKey(AbsoluteUri(startUri))
  }

  /** For a URI as `System.Uri` produces it, the corrected key is the `AbsoluteUri` of the fragment-stripped URI. */
  lemma SeedKeyIsStrippedAbsoluteUri(startUri: Uri)
    requires WellFormed(startUri)
    ensures SeedKey(startUri) == AbsoluteUri(StripFragment(startUri))
  {
    CutAtHashAgreesWithStripFragment(startUri);
  }

  class Memory {
    const startUri: Uri
    /** `_alreadyVerifiedUrls`. */
    var alreadyVerifiedUrls: set<string>
    var toBeVerifiedRawResources: seq<RawResource>
    var toBeRenderedUris: seq<Uri>
    var toBeExtractedHtmlDocuments: seq<HtmlDocument>
    var crawlerState: CrawlerState
    /** Whether `CancelEverything` has cancelled the token. */
    var cancellationRequested: bool

    /**
     * The queues stay within their bound, and every queued raw resource's key is registered, except for the start
     * URL, which the constructor registers under its full `AbsoluteUri`.
     */
    ghost predicate Valid()
      reads this
    {
      |toBeVerifiedRawResources| <= Capacity && |toBeRenderedUris| <= Capacity &&
      |toBeExtractedHtmlDocuments| <= Capacity &&
      forall i :: 0 <= i < |toBeVerifiedRawResources| ==>
        UrlKey(toBeVerifiedRawResources[i].url) in alreadyVerifiedUrls ||
        toBeVerifiedRawResources[i].url == AbsoluteUri(startUri)
    }

    /** Every queued raw resource's key is registered, so `Memorize` never queues a queued URL again. */
    ghost predicate KeysRegistered()
      reads this
    {
      forall i :: 0 <= i < |toBeVerifiedRawResources| ==> UrlKey(toBeVerifiedRawResources[i].url) in alreadyVerifiedUrls
    }

    /**
     * `Ready`, the start URL's `AbsoluteUri` registered as it is, fragment included, and the start URL queued alone
     * with no parent; nothing to render or extract.
     */
    constructor (startUri: Uri)
      ensures Valid()
      ensures this.startUri == startUri && crawlerState == Ready && !cancellationRequested
      ensures alreadyVerifiedUrls == {SeedKeyAsWritten(startUri)}
      ensures toBeVerifiedRawResources == [RawResource(None, AbsoluteUri(startUri), None)]
      ensures toBeRenderedUris == [] && toBeExtractedHtmlDocuments == []
    {
      this.startUri := startUri;
      crawlerState := Ready;
      cancellationRequested := false;
      alreadyVerifiedUrls := {SeedKeyAsWritten(startUri)};
      toBeVerifiedRawResources := [RawResource(None, AbsoluteUri(startUri), None)];
      toBeRenderedUris := [];
      toBeExtractedHtmlDocuments := [];
    }

    /** The corrected constructor: the start URL is registered under `SeedKey`, the key `Memorize` looks up. */
    constructor WithStrippedSeed(startUri: Uri)
      ensures Valid() && KeysRegistered()
      ensures this.startUri == startUri && crawlerState == Ready && !cancellationRequested
      ensures alreadyVerifiedUrls == {SeedKey(startUri)}
      ensures toBeVerifiedRawResources == [RawResource(None, AbsoluteUri(startUri), None)]
      ensures toBeRenderedUris == [] && toBeExtractedHtmlDocuments == []
    {
      this.startUri := startUri;
      crawlerState := Ready;
      cancellationRequested := false;
      alreadyVerifiedUrls := {SeedKey(startUri)};
      toBeVerifiedRawResources := [RawResource(None, AbsoluteUri(startUri), None)];
      toBeRenderedUris := [];
      toBeExtractedHtmlDocuments := [];
    }

    /** `NothingLeftToDo`: none of the three queues holds anything. */
    predicate NothingLeftToDo()
      reads this
      ensures NothingLeftToDo() <==> |toBeVerifiedRawResources| + |toBeRenderedUris| + |toBeExtractedHtmlDocuments| == 0
    {
      !(|toBeVerifiedRawResources| > 0) && !(|toBeRenderedUris| > 0) && !(|toBeExtractedHtmlDocuments| > 0)
    }

    /** `RemainingUrlCount`: the raw resources still waiting to be verified. */
    function RemainingUrlCount(): (n: nat)
      reads this
      ensures n == 0 <==> toBeVerifiedRawResources == []
      ensures NothingLeftToDo() ==> n == 0
    {
      |toBeVerifiedRawResources|
    }

    method CancelEverything()
      modifies this`cancellationRequested
      ensures cancellationRequested
    {
      cancellationRequested := true;
    }

    /**
     * `Memorize(RawResource)`: nothing once cancelled or when the URL's key is registered; otherwise the key is
     * registered for good and the raw resource, URL unchanged, goes to the back of the to-verify queue, unless
     * that queue is full (the add that would block is cancelled: registered, not queued).
     */
    method MemorizeToBeVerified(rawResource: RawResource)
      requires Valid()
      modifies this`alreadyVerifiedUrls, this`toBeVerifiedRawResources
      ensures Valid()
      ensures old(KeysRegistered()) ==> KeysRegistered()
      ensures old(alreadyVerifiedUrls) <= alreadyVerifiedUrls
      ensures cancellationRequested || UrlKey(rawResource.url) in old(alreadyVerifiedUrls) ==>
        alreadyVerifiedUrls == old(alreadyVerifiedUrls) && toBeVerifiedRawResources == old(toBeVerifiedRawResources)
      ensures !cancellationRequested && UrlKey(rawResource.url) !in old(alreadyVerifiedUrls) ==>
        alreadyVerifiedUrls == old(alreadyVerifiedUrls) + {UrlKey(rawResource.url)} &&
        toBeVerifiedRawResources == old(toBeVerifiedRawResources) +
          (if |old(toBeVerifiedRawResources)| < Capacity then [rawResource] else [])
    {
      if cancellationRequested {
        return;
      }
      var key := UrlKey(rawResource.url);
      if key in alreadyVerifiedUrls {
        return;
      }
      alreadyVerifiedUrls := alreadyVerifiedUrls + {key};
      if |toBeVerifiedRawResources| < Capacity {
        toBeVerifiedRawResources := toBeVerifiedRawResources + [rawResource];
      }
    }

    /** `Memorize(Uri)`: to the back of the to-render queue, with no de-duplication, unless cancelled or full. */
    method MemorizeToBeRendered(uri: Uri)
      requires Valid()
      modifies this`toBeRenderedUris
      ensures Valid()
      ensures toBeRenderedUris == old(toBeRenderedUris) +
        (if !cancellationRequested && |old(toBeRenderedUris)| < Capacity then [uri] else [])
    {
      if !cancellationRequested && |toBeRenderedUris| < Capacity {
        toBeRenderedUris := toBeRenderedUris + [uri];
      }
    }

    /** `Memorize(HtmlDocument)`: to the back of the to-extract queue, with no de-duplication, unless cancelled or full. */
    method MemorizeToBeExtracted(document: HtmlDocument)
      requires Valid()
      modifies this`toBeExtractedHtmlDocuments
      ensures Valid()
      ensures toBeExtractedHtmlDocuments == old(toBeExtractedHtmlDocuments) +
        (if !cancellationRequested && |old(toBeExtractedHtmlDocuments)| < Capacity then [document] else [])
    {
      if !cancellationRequested && |toBeExtractedHtmlDocuments| < Capacity {
        toBeExtractedHtmlDocuments := toBeExtractedHtmlDocuments + [document];
      }
    }

    /** `TakeToBeVerifiedRawResource`: the front of the queue; cancelled or empty, the take fails. */
    method TakeToBeVerifiedRawResource() returns (r: Result<RawResource>)
      requires Valid()
      modifies this`toBeVerifiedRawResources
      ensures Valid()
      ensures old(KeysRegistered()) ==> KeysRegistered()
      ensures cancellationRequested || old(toBeVerifiedRawResources) == [] ==>
        r.Failure? && toBeVerifiedRawResources == old(toBeVerifiedRawResources)
      ensures !cancellationRequested && old(toBeVerifiedRawResources) != [] ==>
        r == Success(old(toBeVerifiedRawResources)[0]) &&
        toBeVerifiedRawResources == old(toBeVerifiedRawResources)[1..]
    {
      if cancellationRequested || toBeVerifiedRawResources == [] {
        return Failure("OperationCanceledException");
      }
      r := Success(toBeVerifiedRawResources[0]);
      toBeVerifiedRawResources := toBeVerifiedRawResources[1..];
    }

    /** `TakeToBeRenderedUri`: the front of the queue; cancelled or empty, the take fails. */
    method TakeToBeRenderedUri() returns (r: Result<Uri>)
      requires Valid()
      modifies this`toBeRenderedUris
      ensures Valid()
      ensures cancellationRequested || old(toBeRenderedUris) == [] ==>
        r.Failure? && toBeRenderedUris == old(toBeRenderedUris)
      ensures !cancellationRequested && old(toBeRenderedUris) != [] ==>
        r == Success(old(toBeRenderedUris)[0]) && toBeRenderedUris == old(toBeRenderedUris)[1..]
    {
      if cancellationRequested || toBeRenderedUris == [] {
        return Failure("OperationCanceledException");
      }
      r := Success(toBeRenderedUris[0]);
      toBeRenderedUris := toBeRenderedUris[1..];
    }

    /** `TakeToBeExtractedHtmlDocument`: the front of the queue; cancelled or empty, the take fails. */
    method TakeToBeExtractedHtmlDocument() returns (r: Result<HtmlDocument>)
      requires Valid()
      modifies this`toBeExtractedHtmlDocuments
      ensures Valid()
      ensures cancellationRequested || old(toBeExtractedHtmlDocuments) == [] ==>
        r.Failure? && toBeExtractedHtmlDocuments == old(toBeExtractedHtmlDocuments)
      ensures !cancellationRequested && old(toBeExtractedHtmlDocuments) != [] ==>
        r == Success(old(toBeExtractedHtmlDocuments)[0]) &&
        toBeExtractedHtmlDocuments == old(toBeExtractedHtmlDocuments)[1..]
    {
      if cancellationRequested || toBeExtractedHtmlDocuments == [] {
        return Failure("OperationCanceledException");
      }
      r := Success(toBeExtractedHtmlDocuments[0]);
      toBeExtractedHtmlDocuments := toBeExtractedHtmlDocuments[1..];
    }

    /**
     * `TryTransitTo`: from `Unknown` every request is refused; a request for `Unknown` is an error; otherwise the
     * move happens exactly when it is one of `AllowedMoves`.
     */
    method TryTransitTo(target: CrawlerState) returns (r: Result<bool>)
      modifies this`crawlerState
      ensures old(crawlerState) == Unknown ==> r == Success(false) && crawlerState == Unknown
      ensures old(crawlerState) != Unknown && target == Unknown ==> r.Failure? && crawlerState == old(crawlerState)
      ensures old(crawlerState) != Unknown && target != Unknown ==>
        r == Success((old(crawlerState), target) in AllowedMoves) &&
        crawlerState == if r.value then target else old(crawlerState)
    {
      if crawlerState == Unknown {
        return Success(false);
      }
      match target {
        case Ready =>
          if crawlerState != Stopping {
            return Success(false);
          }
          crawlerState := Ready;
          return Success(true);
        case Working =>
          if crawlerState != Ready && crawlerState != Paused {
            return Success(false);
          }
          crawlerState := Working;
          return Success(true);
        case Stopping =>
          if crawlerState != Working && crawlerState != Paused {
            return Success(false);
          }
          crawlerState := Stopping;
          return Success(true);
        case Paused =>
          if crawlerState != Working {
            return Success(false);
          }
          crawlerState := Paused;
          return Success(true);
        case Unknown =>
          return Failure("NotSupportedException: Cannot transit to [Unknown] state.");
      }
    }
  }

  // ----- Properties of the bookkeeping -----

  /**
   * The start URL with a fragment, found again in a page, as written: the constructor registered the full
   * `AbsoluteUri`, `Memorize` looks up the key cut at the `#`, so the start URL is queued a second time.
   */
  method StartUrlQueuedTwiceAsWritten() returns (m: Memory)
    ensures |m.toBeVerifiedRawResources| == 2
    ensures m.toBeVerifiedRawResources[0].url == m.toBeVerifiedRawResources[1].url == AbsoluteUri(m.startUri)
  {
    var startUri := Uri("http", "example.com", "/", "#top");
    m := new Memory(startUri);
    SeedReadmittedAsWritten();
    m.MemorizeToBeVerified(RawResource(Some(Uri("http", "example.com", "/about", "")), AbsoluteUri(startUri), None));
  }

  /** The same crawl with the corrected constructor: the start URL found again is not queued again. */
  method StartUrlQueuedOnceCorrected() returns (m: Memory)
    ensures |m.toBeVerifiedRawResources| == 1
    ensures m.toBeVerifiedRawResources[0].url == AbsoluteUri(m.startUri)
  {
    var startUri := Uri("http", "example.com", "/", "#top");
    m := new Memory.WithStrippedSeed(startUri);
    m.MemorizeToBeVerified(RawResource(Some(Uri("http", "example.com", "/about", "")), AbsoluteUri(startUri), None));
  }

  /** The state after a sequence of `TryTransitTo` requests, each refused request leaving it as it is. */
  function TransitAll(s: CrawlerState, targets: seq<CrawlerState>): CrawlerState
  {
    if targets == [] then s
    else
      var t := targets[|targets| - 1];
      var before := TransitAll(s, targets[..|targets| - 1]);
      if (before, t) in AllowedMoves then t else before
  }

  /** Starting anywhere but `Unknown`, no sequence of requests ever reaches `Unknown`. */
  lemma {:induction false} UnknownIsNeverEntered(s: CrawlerState, targets: seq<CrawlerState>)
    requires s != Unknown
    ensures TransitAll(s, targets) != Unknown
  {
    if targets != [] {
      UnknownIsNeverEntered(s, targets[..|targets| - 1]);
    }
  }

  /** Every allowed move changes the state, and `Unknown` is neither left nor entered by one. */
  lemma AllowedMovesChangeState()
    ensures forall m :: m in AllowedMoves ==> m.0 != m.1 && m.0 != Unknown && m.1 != Unknown
  {
  }

  /** The crawler only ever ends up in its initial state or in a state that was requested. */
  lemma {:induction false} OnlyRequestedStatesAreReached(s: CrawlerState, targets: seq<CrawlerState>)
    ensures TransitAll(s, targets) == s || TransitAll(s, targets) in targets
  {
    if targets != [] {
      var prefix := targets[..|targets| - 1];
      OnlyRequestedStatesAreReached(s, prefix);
      assert forall x :: x in prefix ==> x in targets;
    }
  }
}
