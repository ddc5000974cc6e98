/**
 * Resource: a discovered URL. Construction never throws: a URL that cannot be made absolute gets the status
 * `MalformedUri`, one whose scheme is neither `http` nor `https` gets `UriSchemeNotSupported`. Every URI the
 * resource stores has its fragment stripped.
 */
module Resources {
  import opened Wrappers
  import opened Text
  import opened Uris
  import opened IdGenerators
  import SC = StatusCodes

  const MalformedUri := SC.ParsingError(SC.MalformedUri)
  const UriSchemeNotSupported := SC.ParsingError(SC.UriSchemeNotSupported)

  predicate SchemeIsSupported(u: Uri)
  {
    u.scheme == "http" || u.scheme == "https"
  }

  /** The absolute form of a raw URL: parsed as it is, or resolved against the parent if it is relative. */
  function ResolveUrl(lib: UriLibrary, originalUrl: string, parentUri: Option<Uri>): Option<Uri>
  {
    match lib.parse(originalUrl)
    case Absolute(u) => Some(u)
    case Relative => if parentUri.None? then None else lib.resolve(parentUri.value, originalUrl)
    case Unparseable => None
  }

  /** What the constructor derives from its arguments: `OriginalUri` and the initial `StatusCode`. */
  datatype Classification = Classification(originalUri: Option<Uri>, statusCode: Option<SC.StatusCode>)

  /**
   * The constructor's classification. `MalformedUri` exactly when no absolute URI can be made; otherwise
   * `UriSchemeNotSupported` exactly when the scheme is not `http`/`https` (checked only while the status is still
   * unset, so `MalformedUri` wins); otherwise no status. `OriginalUri` is the absolute URI, fragment stripped.
   */
  function Classify(lib: UriLibrary, originalUrl: string, parentUri: Option<Uri>): (c: Classification)
    ensures c.originalUri.None? <==> ResolveUrl(lib, originalUrl, parentUri).None?
    ensures c.originalUri.Some? ==> c.originalUri.value == StripFragment(ResolveUrl(lib, originalUrl, parentUri).value)
    ensures c.statusCode == Some(MalformedUri) <==> c.originalUri.None?
    ensures c.statusCode == Some(UriSchemeNotSupported) <==>
      c.originalUri.Some? && !SchemeIsSupported(c.originalUri.value)
    ensures c.statusCode.None? <==> c.originalUri.Some? && SchemeIsSupported(c.originalUri.value)
    ensures c.originalUri.Some? ==> IsBlank(c.originalUri.value.fragment)
  {
    match ResolveUrl(lib, originalUrl, parentUri)
    case None => Classification(None, Some(MalformedUri))
    case Some(u) =>
      var original := StripFragment(u);
      Classification(Some(original), if SchemeIsSupported(original) then None else Some(UriSchemeNotSupported))
  }

  class Resource {
    const id: Int32
    const isExtractedFromHtmlDocument: bool
    var isInternal: bool
    const originalUri: Option<Uri>
    const originalUrl: string
    const parentUri: Option<Uri>
    var statusCode: Option<SC.StatusCode>
    var uri: Option<Uri>

    /** `Id`, `ParentUri`, `OriginalUrl` and `IsExtractedFromHtmlDocument` are kept as passed; `Uri` starts as `OriginalUri`. */
    constructor (lib: UriLibrary, id: Int32, originalUrl: string, parentUri: Option<Uri>, isExtractedFromHtmlDocument: bool)
      ensures this.id == id && this.originalUrl == originalUrl && this.parentUri == parentUri
      ensures this.isExtractedFromHtmlDocument == isExtractedFromHtmlDocument
      ensures originalUri == Classify(lib, originalUrl, parentUri).originalUri
      ensures statusCode == Classify(lib, originalUrl, parentUri).statusCode
      ensures uri == originalUri && !isInternal
    {
      this.id := id;
      this.parentUri := parentUri;
      this.originalUrl := originalUrl;
      this.isExtractedFromHtmlDocument := isExtractedFromHtmlDocument;
      isInternal := false;

      var original: Option<Uri> := None;
      var status: Option<SC.StatusCode> := None;
      match lib.parse(originalUrl) {
        case Absolute(u) =>
          original := Some(StripFragment(u));
        case Relative =>
          var resolved := if parentUri.None? then None else lib.resolve(parentUri.value, originalUrl);
          if resolved.Some? {
            original := Some(StripFragment(resolved.value));
          } else {
            status := Some(MalformedUri);
          }
        case Unparseable =>
          status := Some(MalformedUri);
      }
      if status.None? && !SchemeIsSupported(original.value) {
        status := Some(UriSchemeNotSupported);
      }
      originalUri := original;
      statusCode := status;
      uri := original;
    }

    /** The `Uri` setter: the stored URI is always the assigned one with its fragment stripped. */
    method SetUri(value: Uri)
      modifies this`uri
      ensures uri == Some(StripFragment(value))
      ensures IsBlank(uri.value.fragment)
    {
      uri := Some(StripFragment(value));
    }
  }
}
