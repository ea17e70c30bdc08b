/**
 * Classification of link targets on the homepage (src/App.tsx:26-34, 71-89).
 *
 * `isExternalHref` tests the regular expression `/^https?:\/\//i`. The model
 * spells that test out as an anchored, left-to-right match of the literal
 * pieces `http`, an optional `s` and `://`, each compared under ASCII case
 * folding. ECMAScript's case-insensitive matching (without the `u` flag)
 * never lets a non-ASCII character stand for an ASCII one, so folding only
 * `A`-`Z` is exact for this pattern.
 */
module Links {
  import opened Wrappers

  /** Lower-cases `A`-`Z`; every other character, non-ASCII letters included, is left as it is. */
  function FoldAscii(c: char): (d: char)
    ensures 'A' <= c <= 'Z' ==> 'a' <= d <= 'z'
    ensures !('A' <= c <= 'Z') ==> d == c
  {
    if 'A' <= c <= 'Z' then (c as int + 32) as char else c
  }

  /** The whole string under ASCII case folding. */
  function FoldString(s: string): (r: string)
    ensures |r| == |s|
    ensures forall i :: 0 <= i < |s| ==> r[i] == FoldAscii(s[i])
  {
    seq(|s|, i requires 0 <= i < |s| => FoldAscii(s[i]))
  }

  /** `s` begins with `lit` when upper and lower case ASCII letters are not told apart. */
  predicate FoldedPrefix(lit: string, s: string) {
    |lit| <= |s| && forall i :: 0 <= i < |lit| ==> FoldAscii(s[i]) == FoldAscii(lit[i])
  }

  /**
   * Matches the literal `lit` at the front of `s`, one character at a time,
   * and gives the input left over, or None when `s` does not begin with `lit`.
   */
  function ConsumeLiteral(s: string, lit: string): (rest: Option<string>)
    ensures rest.Some? <==> FoldedPrefix(lit, s)
    ensures rest.Some? ==> rest.value == s[|lit|..]
  {
    if lit == [] then Some(s)
    else if s == [] || FoldAscii(s[0]) != FoldAscii(lit[0]) then None
    else ConsumeLiteral(s[1..], lit[1..])
  }

  /**
   * `/^https?:\/\//i.test(href)`: `http`, then `s?` tried greedily with the
   * `s` first and, failing that, with nothing, then `://`; the match is
   * anchored at position 0 and whatever follows it is ignored.
   */
  predicate IsExternalHref(href: string)
    ensures IsExternalHref(href) ==> |href| >= 7 && FoldAscii(href[0]) == 'h'
  {
    match ConsumeLiteral(href, "http")
    case None => false
    case Some(afterHttp) =>
      (match ConsumeLiteral(afterHttp, "s")
       case Some(afterS) => ConsumeLiteral(afterS, "://").Some?
       case None => false)
      || ConsumeLiteral(afterHttp, "://").Some?
  }

  /**
   * The classification in plain words: `href` is external exactly when it
   * begins with `http://` or `https://`, ASCII letters compared without case.
   */
  lemma IsExternalHrefIff(href: string)
    ensures IsExternalHref(href) <==> FoldedPrefix("http://", href) || FoldedPrefix("https://", href)
  {
  }

  /** Only the ASCII case of letters is ignored: two hrefs that fold to the same string are classified alike. */
  lemma ExternalIgnoresAsciiCase(h: string, g: string)
    requires FoldString(h) == FoldString(g)
    ensures IsExternalHref(h) <==> IsExternalHref(g)
  {
    forall i | 0 <= i < |h| ensures FoldAscii(h[i]) == FoldAscii(g[i]) {
      assert FoldString(h)[i] == FoldString(g)[i];
    }
    IsExternalHrefIff(h);
    IsExternalHrefIff(g);
  }

  /** The match is anchored: a first character other than `h` or `H` rules it out, whatever follows. */
  lemma ExternalAnchoredAtStart(c: char, rest: string)
    requires c != 'h' && c != 'H'
    ensures !IsExternalHref([c] + rest)
  {
  }

  /** Both slashes are mandatory: an external href has `://` right after `http` or after `https`. */
  lemma ExternalNeedsSeparator(href: string)
    requires IsExternalHref(href)
    ensures (|href| >= 7 && href[4..7] == "://") || (|href| >= 8 && href[5..8] == "://")
  {
  }

  /** The case folding never matches a non-ASCII character: the first seven characters of an external href are ASCII. */
  lemma ExternalPrefixIsAscii(href: string)
    requires IsExternalHref(href)
    ensures |href| >= 7 && forall i :: 0 <= i < 7 ==> href[i] as int < 128
  {
  }

  /** The pattern has no end anchor: text after a matching prefix does not change the verdict. */
  lemma ExternalIgnoresSuffix(href: string, tail: string)
    requires IsExternalHref(href)
    ensures IsExternalHref(href + tail)
  {
  }

  /** The outbound destinations and in-page anchors used on the page (src/App.tsx:22-24, 159-179, 244, 335, 539-541). */
  // The two URLs are written as scheme plus remainder; the values are the page's.
  const YouTubeUrl := "https://" + "www.youtube.com/channel/UC9jvQobbQgDEZD784CKtj0w"
  const SpotifyUrl := "https://" + "open.spotify.com/show/0MkffeLIqljQ36aYBGJdzG?si=947f0a7e35f44709"
  const InPageHrefs := ["#inicio", "#episodios", "#sobre", "#contacto", "#ultimo-episodio", "#"]

  /** Every `https://` URL is external. */
  lemma HttpsUrlExternal(rest: string)
    ensures IsExternalHref("https://" + rest)
  {
  }

  /** The two outbound destinations are external. */
  lemma OutboundUrlsExternal()
    ensures IsExternalHref(YouTubeUrl) && IsExternalHref(SpotifyUrl)
  {
  }

  /** No in-page anchor is external. */
  lemma InPageHrefsNotExternal()
    ensures forall h :: h in InPageHrefs ==> !IsExternalHref(h)
  {
  }

  /** An upper-case scheme is external. */
  lemma UpperCaseSchemeExternal()
    ensures IsExternalHref("HTTPS://x")
  {
  }

  /** A mixed-case scheme is external. */
  lemma MixedCaseSchemeExternal()
    ensures IsExternalHref("Http://x")
  {
  }

  /** A scheme without both slashes is not external. */
  lemma TruncatedSeparatorsNotExternal()
    ensures !IsExternalHref("http:/x") && !IsExternalHref("https:x") && !IsExternalHref("https:/")
  {
  }

  /** A scheme that appears only later in the string, or another scheme, is not external. */
  lemma UnanchoredNotExternal()
    ensures !IsExternalHref("see http://x") && !IsExternalHref("ftp://x")
  {
  }

  /** U+017F (long s) upper-cases to `S`, yet it does not stand for the pattern's `s`. */
  lemma LongSNotExternal()
    ensures !IsExternalHref("http\U{17F}://x")
  {
  }

  /** Attribute value of `target` that opens a new browsing context. */
  const NewContextTarget := "_blank"
  /** Attribute value of `rel` that withholds `window.opener` and the referrer. */
  const NoLeakRel := "noopener noreferrer"

  /**
   * `externalLinkProps(href)`: the attributes spread onto an anchor,
   * `{target, rel}` for an external href and `{}` for any other.
   */
  function ExternalLinkProps(href: string): (props: map<string, string>)
    ensures props == map[] || props == map["target" := NewContextTarget, "rel" := NoLeakRel]
    ensures "target" in props <==> IsExternalHref(href)
    ensures "rel" in props <==> IsExternalHref(href)
  {
    if IsExternalHref(href) then map["target" := NewContextTarget, "rel" := NoLeakRel] else map[]
  }

  /** The attributes depend on nothing but the classification of the href. */
  lemma ExternalLinkPropsByClass(h: string, g: string)
    requires IsExternalHref(h) <==> IsExternalHref(g)
    ensures ExternalLinkProps(h) == ExternalLinkProps(g)
  {
  }

  /**
   * The attributes `SmartA` puts on its `<a>`: `href`, `id` when one is
   * given, and the spread of `externalLinkProps(href)` (class names and
   * styles are presentational and not modelled).
   */
  function SmartAnchor(href: string, id: Option<string>): (attrs: map<string, string>)
    ensures "href" in attrs && attrs["href"] == href
    ensures "id" in attrs <==> id.Some?
    ensures id.Some? ==> attrs["id"] == id.value
    ensures attrs.Keys == {"href"} + (if id.Some? then {"id"} else {}) + ExternalLinkProps(href).Keys
    ensures forall k :: k in ExternalLinkProps(href) ==> k in attrs && attrs[k] == ExternalLinkProps(href)[k]
  {
    map["href" := href]
      + (if id.Some? then map["id" := id.value] else map[])
      + ExternalLinkProps(href)
  }

  /** An anchor opens a new, isolated browsing context exactly when its href is external. */
  lemma SmartAnchorOpensNewContextIff(href: string, id: Option<string>)
    ensures var attrs := SmartAnchor(href, id);
      ("target" in attrs && attrs["target"] == NewContextTarget && "rel" in attrs && attrs["rel"] == NoLeakRel)
      <==> IsExternalHref(href)
    ensures var attrs := SmartAnchor(href, id); !IsExternalHref(href) ==> "target" !in attrs && "rel" !in attrs
  {
  }
}
