/**
 * URIs as records. Parsing a URL string (`Uri.TryCreate` with `UriKind.RelativeOrAbsolute`) and resolving a
 * relative reference against a base (section 5.2 of RFC 3986) are done by the .NET class library; here they are
 * the two given functions of a `UriLibrary`.
 */
module Uris {
  import opened Text
  import opened Wrappers

  /**
   * An absolute URI as `System.Uri` exposes it: `Scheme`, `Host`, everything between the host and the fragment
   * (port, path and query) as `path`, and `Fragment`, which is empty or starts with `#`.
   */
  datatype Uri = Uri(scheme: string, host: string, path: string, fragment: string)

  /** What `Uri.TryCreate(url, UriKind.RelativeOrAbsolute, out uri)` yields. */
  datatype ParsedUrl = Absolute(uri: Uri) | Relative | Unparseable

  /** The parts of `System.Uri` the model takes as given. */
  datatype UriLibrary = UriLibrary(
    parse: string -> ParsedUrl,
    // Uri.TryCreate(baseUri, relativeUrl, out result): resolution of a reference, section 5.2 of RFC 3986
    resolve: (Uri, string) -> Option<Uri>)

  /** `Uri.AbsoluteUri`: the whole URI written out, fragment included. */
  function AbsoluteUri(u: Uri): string
  {
    u.scheme + "://" + u.host + u.path + u.fragment
  }

  /** A URI as `System.Uri` produces it: no `#` before the fragment, and the fragment empty or led by `#`. */
  predicate WellFormed(u: Uri)
  {
    '#' !in u.scheme && '#' !in u.host && '#' !in u.path && (u.fragment == "" || u.fragment[0] == '#')
  }

  /**
   * `Resource.StripFragment`: a URI whose fragment is empty or white space is returned as it is; any other
   * loses its fragment (section 3.5 of RFC 3986). Nothing but the fragment changes.
   */
  function StripFragment(u: Uri): (r: Uri)
    ensures IsBlank(r.fragment)
    ensures r.scheme == u.scheme && r.host == u.host && r.path == u.path
    ensures IsBlank(u.fragment) ==> r == u
    ensures !IsBlank(u.fragment) ==> r.fragment == ""
  {
    if IsBlank(u.fragment) then u else u.(fragment := "")
  }

  /** Stripping twice is stripping once. */
  lemma StripFragmentIdempotent(u: Uri)
    ensures StripFragment(StripFragment(u)) == StripFragment(u)
  {
  }

  /** Two URIs that differ only in their fragment strip to the same URI. */
  lemma StripFragmentIgnoresFragment(u: Uri, fragment: string)
    requires !IsBlank(u.fragment) && !IsBlank(fragment)
    ensures StripFragment(u.(fragment := fragment)) == StripFragment(u)
  {
  }

  /** Cutting `a + b` at the first `#` gives `a` when `a` has no `#` and `b` is empty or starts with one. */
  lemma {:induction false} CutAtHashOfConcat(a: string, b: string)
    requires '#' !in a
    requires b == [] || b[0] == '#'
    ensures CutAtHash(a + b) == a
  {
    if a == [] {
      assert a + b == b;
    } else {
      assert (a + b)[1..] == a[1..] + b;
      CutAtHashOfConcat(a[1..], b);
    }
  }

  /**
   * For a well-formed URI, cutting its `AbsoluteUri` at the first `#` (the string extension used by the crawler's
   * memory) gives the `AbsoluteUri` of the fragment-stripped URI (the key the coordinator registers).
   */
  lemma CutAtHashAgreesWithStripFragment(u: Uri)
    requires WellFormed(u)
    ensures CutAtHash(AbsoluteUri(u)) == AbsoluteUri(StripFragment(u))
  {
    var head := u.scheme + "://" + u.host + u.path;
    assert AbsoluteUri(u) == head + u.fragment;
    assert '#' !in "://";
    CutAtHashOfConcat(head, u.fragment);
    if u.fragment == "" {
      assert StripFragment(u) == u;
      assert AbsoluteUri(u) == head;
    } else {
      assert !IsWhiteSpace(u.fragment[0]);
      assert AbsoluteUri(StripFragment(u)) == head + "";
    }
  }
}
