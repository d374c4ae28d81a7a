/** The bundle web server's route parsing and start-up option checks
    (cmd/git-bundle-web-server/main.go). Serving files, looking up the
    repositories, TLS and signal handling are I/O and are not modelled. */
module WebServer {
  import opened Wrappers
  import opened Strconv

  /** The length of the leading run of characters that are not '/'. */
  function SegmentLength(p: string): (r: nat)
    ensures r <= |p|
    ensures forall i :: 0 <= i < r ==> p[i] != '/'
    ensures r < |p| ==> p[r] == '/'
  {
    if p == [] || p[0] == '/' then 0 else 1 + SegmentLength(p[1..])
  }

  /** A segment as strings.FieldsFunc yields it: not empty, and free of '/'. */
  predicate Component(s: string) {
    |s| > 0 && forall i :: 0 <= i < |s| ==> s[i] != '/'
  }

  /** strings.FieldsFunc(path, c == '/'): the maximal runs of characters
      other than '/', in order; empty runs are dropped. */
  function Segments(path: string): (r: seq<string>)
    ensures forall i :: 0 <= i < |r| ==> Component(r[i])
    decreases |path|
  {
    if path == [] then []
    else if path[0] == '/' then Segments(path[1..])
    else
      var n := SegmentLength(path);
      [path[..n]] + Segments(path[n..])
  }

  /** A run of non-slash characters ends where the first '/' does. */
  lemma SegmentLengthBeforeSlash(a: string, b: string)
    ensures SegmentLength(a + "/" + b) == SegmentLength(a)
  {
    var p := a + "/" + b;
    var y := SegmentLength(a);
    if y < |a| {
      assert p[y] == a[y];
    } else {
      assert p[|a|] == '/';
    }
    assert forall i :: 0 <= i < y ==> p[i] == a[i];
  }

  /** Splitting at a '/' splits the segments: the parts on either side are
      split on their own and joined. */
  lemma {:induction false} SegmentsOfSlash(a: string, b: string)
    ensures Segments(a + "/" + b) == Segments(a) + Segments(b)
    decreases |a|
  {
    var p := a + "/" + b;
    if a == [] {
      assert p == "/" + b;
      assert p[1..] == b;
    } else if a[0] == '/' {
      assert p[1..] == a[1..] + "/" + b;
      SegmentsOfSlash(a[1..], b);
    } else {
      var n := SegmentLength(a);
      SegmentLengthBeforeSlash(a, b);
      assert p[..n] == a[..n];
      assert p[n..] == a[n..] + "/" + b;
      SegmentsOfSlash(a[n..], b);
    }
  }

  /** A single component is its own only segment. */
  lemma ComponentSegments(s: string)
    requires Component(s)
    ensures Segments(s) == [s]
  {
    assert s[0] != '/';
    var n := SegmentLength(s);
    assert n == |s|;
    assert s[..n] == s;
    assert s[n..] == [];
  }

  /** Leading, trailing and repeated slashes do not change the segments. */
  lemma SlashesIgnored(a: string, b: string)
    ensures Segments("/" + a) == Segments(a)
    ensures Segments(a + "/") == Segments(a)
    ensures Segments(a + "//" + b) == Segments(a + "/" + b)
  {
    SegmentsOfSlash([], a);
    assert [] + "/" + a == "/" + a;
    SegmentsOfSlash(a, []);
    assert a + "/" + [] == a + "/";
    assert Segments([]) == [];
    SegmentsOfSlash(a, "/" + b);
    assert a + "/" + ("/" + b) == a + "//" + b;
    SegmentsOfSlash([], b);
    assert [] + "/" + b == "/" + b;
    SegmentsOfSlash(a, b);
  }

  /** The owner, the repository and the requested file ("" when the path
      names none). */
  datatype Route = Route(owner: string, repo: string, file: string)

  /** parseRoute: two or three segments make a route; anything else is
      rejected with the message the server logs. */
  function ParseRoute(path: string): (r: Result<Route, string>)
    ensures r.Success? <==> 2 <= |Segments(path)| <= 3
    ensures r.Success? ==> Component(r.value.owner) && Component(r.value.repo)
    ensures r.Success? ==> r.value.file == "" || Component(r.value.file)
    ensures |Segments(path)| == 0 ==> r == Failure("empty route")
    ensures |Segments(path)| == 1 ==> r == Failure("route has owner, but no repo")
    ensures |Segments(path)| > 3 ==> r == Failure("path has depth exceeding three")
  {
    var elements := Segments(path);
    if |elements| == 0 then Failure("empty route")
    else if |elements| == 1 then Failure("route has owner, but no repo")
    else if |elements| == 2 then Success(Route(elements[0], elements[1], ""))
    else if |elements| == 3 then Success(Route(elements[0], elements[1], elements[2]))
    else Failure("path has depth exceeding three")
  }

  /** The path a parsed route stands for: owner, repository and, when there
      is one, the file, joined by single slashes. */
  function RoutePath(r: Route): string {
    r.owner + "/" + r.repo + (if r.file == "" then "" else "/" + r.file)
  }

  /** Two components joined by '/' parse to themselves, with no file; with a
      third component, that is the file. */
  lemma {:induction false} ParseRouteRoundTrip(r: Route)
    requires Component(r.owner) && Component(r.repo) && (r.file == "" || Component(r.file))
    ensures ParseRoute(RoutePath(r)) == Success(r)
  {
    SegmentsOfSlash(r.owner, r.repo);
    ComponentSegments(r.owner);
    ComponentSegments(r.repo);
    if r.file != "" {
      SegmentsOfSlash(r.owner + "/" + r.repo, r.file);
      ComponentSegments(r.file);
      assert RoutePath(r) == r.owner + "/" + r.repo + "/" + r.file;
    } else {
      assert RoutePath(r) == r.owner + "/" + r.repo;
    }
  }

  /** Parsing is undone by RoutePath: a parsed route is the canonical form
      of the path, so every path parses the way its canonical form does. */
  lemma ParseRouteCanonical(path: string)
    requires ParseRoute(path).Success?
    ensures ParseRoute(RoutePath(ParseRoute(path).value)) == ParseRoute(path)
  {
    ParseRouteRoundTrip(ParseRoute(path).value);
  }

  /** The file served for a route: bundle-list when the route names none. */
  function ServedFile(file: string): (r: string)
    ensures file != "" ==> r == file
    ensures r != ""
  {
    if file == "" then "bundle-list" else file
  }

  /** What serve looks up for a path: the repository key owner + "/" + repo
      and the file to read, or the parse error. */
  function ServeTarget(path: string): (r: Result<(string, string), string>)
    ensures r.Success? <==> ParseRoute(path).Success?
    ensures r.Failure? ==> r == Failure(ParseRoute(path).error)
    ensures r.Success? ==> Component(r.value.1)
  {
    var route :- ParseRoute(path);
    Success((route.owner + "/" + route.repo, ServedFile(route.file)))
  }

  /** The repository key of a served path is itself a route of two
      segments that names the same repository, and a path with no file is
      served bundle-list. */
  lemma ServeTargetKey(path: string)
    requires ParseRoute(path).Success?
    ensures var route := ParseRoute(path).value;
      && ParseRoute(ServeTarget(path).value.0) == Success(Route(route.owner, route.repo, ""))
      && (route.file == "" ==> ServeTarget(path).value.1 == "bundle-list")
  {
    var route := ParseRoute(path).value;
    ParseRouteRoundTrip(Route(route.owner, route.repo, ""));
    assert RoutePath(Route(route.owner, route.repo, "")) == route.owner + "/" + route.repo;
  }

  /** The port option is valid when strconv.Atoi accepts it and it lies in
      0..65535. */
  predicate ValidPort(port: string) {
    ParseInt(port).Some? && 0 <= ParseInt(port).value <= 65535
  }

  /** The decimal text of an integer is a valid port exactly when the
      integer is in 0..65535. */
  lemma PortRange(n: int)
    requires MinInt64 <= n <= MaxInt64
    ensures ValidPort(Decimal(n)) <==> 0 <= n <= 65535
  {
    DecimalRoundTrip(n);
  }

  const PairMessage: string := "Both '--cert' and '--key' are needed to specify SSL configuration."

  /** The option checks of main, in order: the first failing one ends the
      program with its usage message, and None means the server starts. */
  function CheckOptions(port: string, cert: string, key: string): (r: Option<string>)
    ensures r.None? <==> ValidPort(port) && (cert == "" <==> key == "")
    ensures !ValidPort(port) ==> r == Some("Invalid port '" + port + "'.")
    ensures ValidPort(port) && r.Some? ==> r == Some(PairMessage)
    ensures r.None? && cert != "" ==> key != ""
  {
    if !ValidPort(port) then Some("Invalid port '" + port + "'.")
    else if (cert == "") != (key == "") then Some(PairMessage)
    else None
  }

  /** The default port and a signed port with both TLS files start the
      server. */
  lemma AcceptedOptions()
    ensures CheckOptions("8080", "", "").None?
    ensures CheckOptions("+443", "c.pem", "k.pem").None?
  {
    DefaultPort();
    SignedTlsPort();
  }

  /** The default port without TLS files starts the server. */
  lemma DefaultPort()
    ensures CheckOptions("8080", "", "").None?
  {
    PortRange(8080);
    assert Decimal(8080) == "8080";
  }

  /** A port with a plus sign, with both TLS files, starts the server. */
  lemma SignedTlsPort()
    ensures CheckOptions("+443", "c.pem", "k.pem").None?
  {
    PortRange(443);
    assert Decimal(443) == "443";
    assert "+443"[1..] == "443";
    assert ParseInt("+443") == ParseInt("443");
  }

  /** Ports out of range or not numbers, and a certificate without its key,
      are refused with their messages. */
  lemma RejectedOptions()
    ensures CheckOptions("65536", "", "") == Some("Invalid port '65536'.")
    ensures CheckOptions("-1", "", "") == Some("Invalid port '-1'.")
    ensures CheckOptions("http", "", "") == Some("Invalid port 'http'.")
    ensures CheckOptions("80", "c.pem", "") == Some(PairMessage)
  {
    PortAboveRange();
    NegativePort();
    WordPort();
    LoneCertificate();
  }

  /** One past the largest port is refused. */
  lemma PortAboveRange()
    ensures CheckOptions("65536", "", "") == Some("Invalid port '65536'.")
  {
    Atoi65536();
    assert "Invalid port '" + "65536" + "'." == "Invalid port '65536'.";
  }

  /** Atoi reads "65536" digit by digit. */
  lemma Atoi65536()
    ensures ParseInt("65536") == Some(65536)
  {
    assert "65536"[..4] == "6553" && "6553"[..3] == "655" && "655"[..2] == "65" && "65"[..1] == "6";
    assert DigitsValue("6") == 6;
    assert DigitsValue("65") == 65;
    assert DigitsValue("655") == 655;
    assert DigitsValue("6553") == 6553;
    assert DigitsValue("65536") == 65536;
  }

  /** A negative number is refused. */
  lemma NegativePort()
    ensures CheckOptions("-1", "", "") == Some("Invalid port '-1'.")
  {
    PortRange(-1);
    assert Decimal(-1) == "-1";
    assert "Invalid port '" + "-1" + "'." == "Invalid port '-1'.";
  }

  /** A word that is no number is refused. */
  lemma WordPort()
    ensures CheckOptions("http", "", "") == Some("Invalid port 'http'.")
  {
    NoDigitNoNumber("http");
    assert "Invalid port '" + "http" + "'." == "Invalid port 'http'.";
  }

  /** A certificate without its key is refused with the pairing message. */
  lemma LoneCertificate()
    ensures CheckOptions("80", "c.pem", "") == Some(PairMessage)
  {
    PortRange(80);
    assert Decimal(80) == "80";
  }
}
