/**
 The web link to one patch set of a change: the service's base URL with
 `c/<change>/<patch set>` joined onto its path.
 */
module RevisionLink {
  import opened GerritTypes
  import opened DecimalFormat

  /**
   A base URL as the URL parser splits it: `origin` is everything before
   the path (scheme and authority), `path` the path itself. Parsing is done
   by a library outside this model; its outcome is an input here.
   */
  datatype Url = Url(origin: string, path: string)

  /** `p` without the slashes it ends with. */
  function TrimTrailingSlashes(p: string): (r: string)
    ensures |r| <= |p| && r == p[..|r|]
    ensures r == "" || r[|r| - 1] != '/'
    ensures forall i :: |r| <= i < |p| ==> p[i] == '/'
  {
    if p != "" && p[|p| - 1] == '/' then TrimTrailingSlashes(p[..|p| - 1]) else p
  }

  /** The path `c/<changeNum>/<psNum>` of a patch set, numbers in decimal. */
  function RevisionPath(changeNum: int, psNum: int): string
  {
    "c/" + Decimal(changeNum) + "/" + Decimal(psNum)
  }

  /** The link to patch set `psNum` of change `changeNum`, or `BadUrl` when the base URL did not parse. */
  function BuildRevisionLink(parsed: Option<Url>, changeNum: int, psNum: int): (r: Result<string>)
    ensures r.Err? <==> parsed.None?
    ensures r.Err? ==> r.error == BadUrl
    ensures r.Ok? ==> |parsed.value.origin| <= |r.value| && r.value[..|parsed.value.origin|] == parsed.value.origin
  {
    match parsed
    case None => Err(BadUrl)
    case Some(u) => Ok(u.origin + TrimTrailingSlashes(u.path) + "/" + RevisionPath(changeNum, psNum))
  }

  /** `s` split at its last slash, if it has one. */
  function SplitLast(s: string): (r: Option<(string, string)>)
    ensures r.Some? ==> s == r.value.0 + "/" + r.value.1 && '/' !in r.value.1
    ensures r.None? ==> '/' !in s
  {
    if s == [] then None
    else if s[|s| - 1] == '/' then Some((s[..|s| - 1], ""))
    else match SplitLast(s[..|s| - 1])
      case None => None
      case Some((front, back)) => Some((front, back + [s[|s| - 1]]))
  }

  lemma {:induction false} SplitLastOfJoin(a: string, t: string)
    requires '/' !in t
    ensures SplitLast(a + "/" + t) == Some((a, t))
    decreases |t|
  {
    var s := a + "/" + t;
    if t != [] {
      assert s[..|s| - 1] == a + "/" + t[..|t| - 1];
      SplitLastOfJoin(a, t[..|t| - 1]);
      assert t[..|t| - 1] + [s[|s| - 1]] == t;
    } else {
      assert s[..|s| - 1] == a;
    }
  }

  /** Reads a link back into its base (origin and path) and the change and patch-set numbers. */
  function ParseRevisionLink(link: string): Option<(string, int, int)>
  {
    match SplitLast(link)
    case None => None
    case Some((rest, ps)) =>
      match SplitLast(rest)
      case None => None
      case Some((rest', change)) =>
        match SplitLast(rest')
        case None => None
        case Some((base, c)) =>
          if c != "c" then None
          else match (ParseDecimal(change), ParseDecimal(ps))
            case (Some(n), Some(m)) => Some((base, n, m))
            case _ => None
  }

  /** A link names exactly the base, change and patch set it was built from. */
  lemma RevisionLinkRoundTrip(u: Url, changeNum: int, psNum: int)
    ensures ParseRevisionLink(BuildRevisionLink(Some(u), changeNum, psNum).value)
         == Some((u.origin + TrimTrailingSlashes(u.path), changeNum, psNum))
  {
    var base := u.origin + TrimTrailingSlashes(u.path);
    var dc, dp := Decimal(changeNum), Decimal(psNum);
    var link := BuildRevisionLink(Some(u), changeNum, psNum).value;
    assert link == ((base + "/" + "c") + "/" + dc) + "/" + dp;
    SplitLastOfJoin((base + "/" + "c") + "/" + dc, dp);
    SplitLastOfJoin(base + "/" + "c", dc);
    SplitLastOfJoin(base, "c");
    DecimalRoundTrip(changeNum);
    DecimalRoundTrip(psNum);
  }

  /** The only text that reads back as (base, change, patch set) is the link built from them. */
  lemma ParseRevisionLinkCanonical(link: string, base: string, changeNum: int, psNum: int)
    requires ParseRevisionLink(link) == Some((base, changeNum, psNum))
    ensures link == base + "/" + RevisionPath(changeNum, psNum)
  {
    var r1 := SplitLast(link).value;
    var r2 := SplitLast(r1.0).value;
    var r3 := SplitLast(r2.0).value;
    assert r3 == (base, "c");
    assert ParseDecimal(r2.1) == Some(changeNum) && ParseDecimal(r1.1) == Some(psNum);
    ParseDecimalCanonical(r2.1, changeNum);
    ParseDecimalCanonical(r1.1, psNum);
    JoinRevisionPath(base, changeNum, psNum);
  }

  /** The pieces a link splits into, joined again, form the link. */
  lemma JoinRevisionPath(base: string, changeNum: int, psNum: int)
    ensures ((base + "/" + "c") + "/" + Decimal(changeNum)) + "/" + Decimal(psNum)
         == base + "/" + RevisionPath(changeNum, psNum)
  {
  }

  /** The base `https://example.com/path` with change 1, patch set 1. */
  lemma RevisionLinkExample()
    ensures BuildRevisionLink(Some(Url("https://example.com", "/path")), 1, 1)
         == Ok("https://example.com/path/c/1/1")
  {
    assert TrimTrailingSlashes("/path") == "/path";
    assert DigitChar(1) == '1';
    assert Decimal(1) == "1";
    assert RevisionPath(1, 1) == "c/1/1";
    assert "https://example.com" + "/path" == "https://example.com/path";
    assert "https://example.com/path" + "/" == "https://example.com/path/";
    assert "https://example.com/path/" + "c/1/1" == "https://example.com/path/c/1/1";
  }
}
