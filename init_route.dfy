/** How `git-bundle-server init <url> [<route>]` picks the route a cloned
    repository is hosted under (cmd/git-bundle-server/init.go, lines 44-52):
    an explicit route is kept, otherwise the route is read off the URL with
    the regular expression ^.*(?:/|:)([\w\.-]+)/([\w\.-]+).git$ . */
module InitRoute {
  import opened Wrappers
  import WebServer

  /** A character of the class [\w\.-]: an ASCII letter, digit, '_', '.'
      or '-'. */
  predicate WordChar(c: char) {
    || 'A' <= c <= 'Z' || 'a' <= c <= 'z' || '0' <= c <= '9'
    || c == '_' || c == '.' || c == '-'
  }

  /** A capture group: one or more characters of the class. */
  predicate WordRun(s: string) {
    |s| > 0 && forall i :: 0 <= i < |s| ==> WordChar(s[i])
  }

  predicate IsSeparator(c: char) {
    c == '/' || c == ':'
  }

  /** The expression matches `url` with the separator (?:/|:) at index `p`
      and the '/' between the two groups at index `q`: `.*` takes
      url[..p] (no newline, since '.' does not match one), the groups are
      url[p+1..q] and url[q+1..|url|-4], and the unescaped '.' takes any
      character but a newline before the final "git". */
  predicate SplitsAt(url: string, p: int, q: int) {
    && 0 <= p < q && q + 1 < |url| - 4
    && (forall i :: 0 <= i < p ==> url[i] != '\n')
    && IsSeparator(url[p])
    && WordRun(url[p + 1..q]) && url[q] == '/'
    && WordRun(url[q + 1..|url| - 4])
    && url[|url| - 4] != '\n' && url[|url| - 3..] == "git"
  }

  /** The characters of a group, indexed in the URL. */
  lemma GroupChars(url: string, lo: int, hi: int)
    requires 0 <= lo <= hi <= |url| && WordRun(url[lo..hi])
    ensures forall i :: lo <= i < hi ==> WordChar(url[i])
  {
    forall i | lo <= i < hi
      ensures WordChar(url[i])
    {
      assert url[lo..hi][i - lo] == url[i];
    }
  }

  /** The expression matches a URL in at most one way: group characters are
      neither separators nor '/', so the separator and the middle '/' are
      fixed, and the greedy `.*` has no choice to make. */
  lemma SplitUnique(url: string, p: int, q: int, p2: int, q2: int)
    requires SplitsAt(url, p, q) && SplitsAt(url, p2, q2)
    ensures p == p2 && q == q2
  {
    GroupChars(url, p + 1, q);
    GroupChars(url, q + 1, |url| - 4);
    GroupChars(url, p2 + 1, q2);
    GroupChars(url, q2 + 1, |url| - 4);
    assert url[p] == url[p];
    assert url[p2] == url[p2];
  }

  /** At a given separator, the middle '/' is the first '/' after it. */
  lemma MiddleSlash(url: string, p: int, q: int)
    requires SplitsAt(url, p, q)
    ensures q == p + 1 + WebServer.SegmentLength(url[p + 1..])
  {
    GroupChars(url, p + 1, q);
    var s := url[p + 1..];
    assert s[q - p - 1] == '/';
    assert forall i :: 0 <= i < q - p - 1 ==> s[i] == url[p + 1 + i];
  }

  /** The match with the separator at index `p` or before, trying the
      rightmost separator first as the greedy `.*` does. */
  function SplitFrom(url: string, p: int): (r: Option<(int, int)>)
    requires p < |url|
    ensures r.Some? ==> SplitsAt(url, r.value.0, r.value.1) && r.value.0 <= p
    ensures r.None? ==> forall p2, q2 :: SplitsAt(url, p2, q2) ==> p2 > p
    decreases p + 1
  {
    if p < 0 then None
    else
      var q := p + 1 + WebServer.SegmentLength(url[p + 1..]);
      if SplitsAt(url, p, q) then Some((p, q))
      else
        var r := SplitFrom(url, p - 1);
        assert forall q2 :: SplitsAt(url, p, q2) ==> q2 == q by {
          forall q2 | SplitsAt(url, p, q2) ensures q2 == q {
            MiddleSlash(url, p, q2);
          }
        }
        r
  }

  /** regexp.FindStringSubmatch: the separator and middle '/' indices of
      the match, if the URL matches. */
  function Match(url: string): (r: Option<(int, int)>)
    ensures r.Some? ==> SplitsAt(url, r.value.0, r.value.1)
    ensures r.None? ==> forall p, q :: !SplitsAt(url, p, q)
  {
    SplitFrom(url, |url| - 1)
  }

  function UsageMessage(url: string): string {
    "Cannot parse route from url '" + url + "'; please specify an explicit route."
  }

  /** The route init uses: the explicit one when given, else the two groups
      joined by '/', else the usage error that ends the command. */
  function DeriveRoute(url: string, route: string): (r: Result<string, string>)
    ensures route != "" ==> r == Success(route)
    ensures route == "" && r.Failure? ==> (forall p, q :: !SplitsAt(url, p, q)) && r.error == UsageMessage(url)
    ensures route == "" && r.Success? ==> exists p, q :: SplitsAt(url, p, q) && r.value == url[p + 1..q] + "/" + url[q + 1..|url| - 4]
  {
    if route != "" then Success(route)
    else match Match(url)
      case None => Failure(UsageMessage(url))
      case Some((p, q)) => Success(url[p + 1..q] + "/" + url[q + 1..|url| - 4])
  }

  /** A URL built from the pieces the expression names matches, and its
      route is the two groups joined by '/'. */
  lemma {:induction false} RouteOfPieces(pre: string, sep: char, owner: string, repo: string, c: char)
    requires forall i :: 0 <= i < |pre| ==> pre[i] != '\n'
    requires IsSeparator(sep) && WordRun(owner) && WordRun(repo) && c != '\n'
    ensures DeriveRoute(pre + [sep] + owner + "/" + repo + [c] + "git", "") == Success(owner + "/" + repo)
  {
    var url := pre + [sep] + owner + "/" + repo + [c] + "git";
    var p := |pre|;
    var q := p + 1 + |owner|;
    assert url[..p] == pre;
    assert url[p + 1..q] == owner;
    assert url[q + 1..|url| - 4] == repo;
    assert url[|url| - 3..] == "git";
    assert url[|url| - 4] == c;
    assert SplitsAt(url, p, q);
    var m := Match(url).value;
    SplitUnique(url, p, q, m.0, m.1);
  }

  /** A matched URL is exactly those pieces. */
  lemma PiecesOfRoute(url: string, p: int, q: int)
    requires SplitsAt(url, p, q)
    ensures url == url[..p] + [url[p]] + url[p + 1..q] + "/" + url[q + 1..|url| - 4] + [url[|url| - 4]] + "git"
  {
    var parts := url[..p] + [url[p]] + url[p + 1..q] + "/" + url[q + 1..|url| - 4] + [url[|url| - 4]] + "git";
    assert |parts| == |url|;
    forall i | 0 <= i < |url| ensures parts[i] == url[i] {
      if i >= |url| - 3 {
        assert url[i] == url[|url| - 3..][i - (|url| - 3)];
      }
    }
  }

  /** A derived route is a route of two segments for the web server, which
      parses back to the two groups and so finds the repository under the
      same key. */
  lemma DerivedRouteServes(url: string)
    requires DeriveRoute(url, "").Success?
    ensures var route := DeriveRoute(url, "").value;
      && WebServer.ParseRoute(route).Success?
      && WebServer.ParseRoute(route).value.file == ""
      && WebServer.RoutePath(WebServer.ParseRoute(route).value) == route
  {
    var m := Match(url).value;
    var owner := url[m.0 + 1..m.1];
    var repo := url[m.1 + 1..|url| - 4];
    WebServer.ParseRouteRoundTrip(WebServer.Route(owner, repo, ""));
    assert WebServer.RoutePath(WebServer.Route(owner, repo, "")) == owner + "/" + repo;
  }

  /** An SSH clone URL: the separator is the ':'. */
  lemma SshUrl()
    ensures DeriveRoute("git@github.com:o/r.git", "") == Success("o/r")
  {
    RouteOfPieces("git@github.com", ':', "o", "r", '.');
    assert "git@github.com" + [':'] + "o" + "/" + "r" + ['.'] + "git" == "git@github.com:o/r.git";
    assert "o" + "/" + "r" == "o/r";
  }

  /** An HTTPS clone URL with a deeper path: only the last two segments
      make the route. */
  lemma HttpsUrl()
    ensures DeriveRoute("https://github.com/x/o/r.git", "") == Success("o/r")
  {
    RouteOfPieces("https://github.com/x", '/', "o", "r", '.');
    assert "https://github.com/x" + ['/'] + "o" + "/" + "r" + ['.'] + "git" == "https://github.com/x/o/r.git";
    assert "o" + "/" + "r" == "o/r";
  }

  /** The '.' before "git" is not escaped, so any character stands there. */
  lemma UnescapedDot()
    ensures DeriveRoute("https://host/o/r_git", "") == Success("o/r")
  {
    RouteOfPieces("https://host", '/', "o", "r", '_');
    assert "https://host" + ['/'] + "o" + "/" + "r" + ['_'] + "git" == "https://host/o/r_git";
    assert "o" + "/" + "r" == "o/r";
  }
}
