/** The listing-search address the scraper opens for a route, date and bus
    type: a path naming the route by its two city slugs, then a query repeating
    the inputs verbatim. */
module ScrapeUrl {
  const BaseUrl: string := "https://www.redbus.in/bus-tickets"

  predicate IsAsciiUpper(c: char) {
    'A' <= c <= 'Z'
  }

  /** ASCII lower-casing; every other character is left alone. */
  function AsciiLower(c: char): (r: char)
    ensures !IsAsciiUpper(r)
    ensures IsAsciiUpper(c) ==> r as int == c as int + 32
    ensures !IsAsciiUpper(c) ==> r == c
  {
    if IsAsciiUpper(c) then (c as int + 32) as char else c
  }

  /** One character of a city slug: a space becomes '-', the rest is lower-cased. */
  function SlugChar(c: char): (r: char)
    ensures r != ' ' && !IsAsciiUpper(r)
  {
    if c == ' ' then '-' else AsciiLower(c)
  }

  /** A city name as it appears in the path: spaces replaced by '-', then
      lower-cased. */
  function CitySlug(s: string): (r: string)
    ensures |r| == |s|
    ensures forall i :: 0 <= i < |s| ==> r[i] == SlugChar(s[i])
  {
    if |s| == 0 then [] else [SlugChar(s[0])] + CitySlug(s[1..])
  }

  /** A slug has no space and no upper-case letter, and keeps every other
      character of the name in place. */
  lemma SlugShape(s: string)
    ensures forall i :: 0 <= i < |s| ==> CitySlug(s)[i] != ' ' && !IsAsciiUpper(CitySlug(s)[i])
    ensures forall i :: 0 <= i < |s| && s[i] != ' ' && !IsAsciiUpper(s[i]) ==> CitySlug(s)[i] == s[i]
  {
  }

  /** Slugging a slug changes nothing. */
  lemma {:induction false} SlugIdempotent(s: string)
    ensures CitySlug(CitySlug(s)) == CitySlug(s)
  {
    if |s| > 0 {
      SlugIdempotent(s[1..]);
      assert CitySlug(s)[1..] == CitySlug(s[1..]);
    }
  }

  /** The scraper's address for a route: the base, then the two city slugs
      joined by "-to-", then '?' and the query naming the inputs verbatim. */
  function GenerateUrl(source: string, destination: string, travelDate: string, busType: string): (r: string)
    ensures var p := |BaseUrl| + 1;
      var q := p + |source| + 4 + |destination|;
      |r| == q + 1 + |RouteQuery(source, destination, travelDate, busType)|
      && r[..p] == BaseUrl + "/"
      && r[p..p + |source|] == CitySlug(source)
      && r[p + |source|..p + |source| + 4] == "-to-"
      && r[p + |source| + 4..q] == CitySlug(destination)
      && r[q] == '?'
      && r[q + 1..] == RouteQuery(source, destination, travelDate, busType)
  {
    var head, src, dst := BaseUrl + "/", CitySlug(source), CitySlug(destination);
    var query := RouteQuery(source, destination, travelDate, busType);
    Segments(head, src, "-to-", dst, query);
    head + RoutePath(source, destination) + "?" + query
  }

  /** Where each part of a five-part join with a '?' before the last one sits. */
  lemma Segments(a: string, b: string, c: string, d: string, e: string)
    ensures a + (b + c + d) + "?" + e == a + b + c + d + "?" + e
    ensures var r := a + b + c + d + "?" + e;
      var q := |a| + |b| + |c| + |d|;
      |r| == q + 1 + |e|
      && r[..|a|] == a
      && r[|a|..|a| + |b|] == b
      && r[|a| + |b|..|a| + |b| + |c|] == c
      && r[|a| + |b| + |c|..q] == d
      && r[q] == '?'
      && r[q + 1..] == e
  {
    var r := a + b + c + d + "?" + e;
    assert r == a + (b + (c + (d + ("?" + e))));
  }


  function RoutePath(source: string, destination: string): string {
    CitySlug(source) + "-to-" + CitySlug(destination)
  }

  function RouteQuery(source: string, destination: string, travelDate: string, busType: string): string {
    "fromCityName=" + source + "&toCityName=" + destination + "&onward=" + travelDate + "&busType=" + busType
  }

  /** The position of the first `c` in `s`, or |s| when there is none. */
  function IndexOf(s: string, c: char): (r: nat)
    ensures r <= |s|
    ensures r < |s| ==> s[r] == c
    ensures forall i :: 0 <= i < r ==> s[i] != c
  {
    if |s| == 0 then 0
    else if s[0] == c then 0
    else 1 + IndexOf(s[1..], c)
  }

  /** An address split at its first '?' into path and query. */
  function SplitQuery(url: string): (string, string) {
    var k := IndexOf(url, '?');
    if k == |url| then (url, "") else (url[..k], url[k + 1..])
  }

  /** When neither city name holds a '?', the address splits back into the
      base, the route path and the query of the inputs. */
  lemma UrlSplits(source: string, destination: string, travelDate: string, busType: string)
    requires '?' !in source && '?' !in destination
    ensures SplitQuery(GenerateUrl(source, destination, travelDate, busType))
         == (BaseUrl + "/" + RoutePath(source, destination), RouteQuery(source, destination, travelDate, busType))
  {
    var head, src, dst := BaseUrl + "/", CitySlug(source), CitySlug(destination);
    var query := RouteQuery(source, destination, travelDate, busType);
    assert '?' !in head;
    SlugKeeps(source, '?');
    SlugKeeps(destination, '?');
    assert '?' !in head + src + "-to-" + dst;
    IndexOfPrefix(head + RoutePath(source, destination), query, '?');
  }

  /** A character that is not '-' and not an ASCII letter appears in a slug
      only where it appears in the name. */
  lemma SlugKeeps(s: string, c: char)
    requires c != '-' && !IsAsciiUpper(c) && !('a' <= c <= 'z') && c !in s
    ensures c !in CitySlug(s)
  {
    var r := CitySlug(s);
    forall i | 0 <= i < |r|
      ensures r[i] != c
    {
      assert s[i] in s;
      assert r[i] == SlugChar(s[i]);
    }
  }

  /** The first `c` of `a + [c] + b` is just past `a` when `a` has none. */
  lemma IndexOfPrefix(a: string, b: string, c: char)
    requires c !in a
    ensures IndexOf(a + [c] + b, c) == |a|
    ensures (a + [c] + b)[..|a|] == a && (a + [c] + b)[|a| + 1..] == b
  {
    var s := a + [c] + b;
    assert s[|a|] == c;
    forall i | 0 <= i < |a|
      ensures s[i] != c
    {
      assert s[i] == a[i];
    }
  }
}
