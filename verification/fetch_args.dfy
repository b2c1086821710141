/**
 Resolution of the arguments of the `git fetch` that materialises a
 revision: an explicit URL, an explicit protocol, or the first default
 protocol the revision offers.
 */
module FetchArgs {
  import opened GerritTypes

  /** The `fetch_protocol` and `fetch_url` parameters of `in`; "" means unset. */
  datatype InParams = InParams(fetchProtocol: string, fetchUrl: string)

  /** The protocols tried, in this order, when the caller names none. */
  const DefaultFetchProtocols: seq<string> := ["http", "anonymous http"]

  /** The index of the first of `protocols` that is a key of `fetch`, if any. */
  function FirstPresent(protocols: seq<string>, fetch: map<string, FetchInfo>): (r: Option<nat>)
    ensures r.Some? ==> r.value < |protocols| && protocols[r.value] in fetch
    ensures r.Some? ==> forall j :: 0 <= j < r.value ==> protocols[j] !in fetch
    ensures r.None? <==> forall j :: 0 <= j < |protocols| ==> protocols[j] !in fetch
  {
    if protocols == [] then None
    else if protocols[0] in fetch then Some(0)
    else match FirstPresent(protocols[1..], fetch)
      case None => None
      case Some(i) => Some(i + 1)
  }

  /** The protocol chosen when none is requested: "http" over "anonymous http", else "". */
  function DefaultProtocol(fetch: map<string, FetchInfo>): (p: string)
    ensures "http" in fetch ==> p == "http"
    ensures "http" !in fetch && "anonymous http" in fetch ==> p == "anonymous http"
    ensures "http" !in fetch && "anonymous http" !in fetch ==> p == ""
  {
    assert DefaultFetchProtocols[0] == "http" && DefaultFetchProtocols[1] == "anonymous http";
    match FirstPresent(DefaultFetchProtocols, fetch)
    case Some(i) => DefaultFetchProtocols[i]
    case None => ""
  }

  /** The protocol whose fetch entry is looked up when no URL is given explicitly. */
  function SelectedProtocol(params: InParams, fetch: map<string, FetchInfo>): string
  {
    if params.fetchProtocol != "" then params.fetchProtocol else DefaultProtocol(fetch)
  }

  /** The `fetch <url> <ref>` arguments for `rev`, or the protocol that has no fetch entry. */
  function ResolvedFetchArgs(params: InParams, rev: RevisionInfo): (r: Result<seq<string>>)
    ensures r.Ok? ==> |r.value| == 3 && r.value[0] == "fetch"
    ensures r.Err? ==> params.fetchUrl == "" && r.error == NoFetchInfo(SelectedProtocol(params, rev.fetch))
  {
    if params.fetchUrl != "" then
      Ok(["fetch", params.fetchUrl, rev.ref])
    else
      var p := SelectedProtocol(params, rev.fetch);
      if p in rev.fetch then Ok(["fetch", rev.fetch[p].url, rev.fetch[p].ref])
      else Err(NoFetchInfo(p))
  }

  /**
   Resolves the fetch arguments step by step: the URL and ref start as the
   explicit URL and the revision's own ref, and are replaced by a fetch
   entry's only when no URL was given.
   */
  method ResolveFetchArgs(params: InParams, rev: RevisionInfo) returns (r: Result<seq<string>>)
    ensures r == ResolvedFetchArgs(params, rev)
  {
    var fetchUrl := params.fetchUrl;
    var fetchRef := rev.ref;
    if fetchUrl == "" {
      var fetchProtocol := params.fetchProtocol;
      if fetchProtocol == "" {
        for i := 0 to |DefaultFetchProtocols|
          invariant fetchProtocol == ""
          invariant forall j :: 0 <= j < i ==> DefaultFetchProtocols[j] !in rev.fetch
        {
          var proto := DefaultFetchProtocols[i];
          if proto in rev.fetch {
            fetchProtocol := proto;
            break;
          }
        }
      }
      assert fetchProtocol == SelectedProtocol(params, rev.fetch);
      if fetchProtocol in rev.fetch {
        var fetchInfo := rev.fetch[fetchProtocol];
        fetchUrl := fetchInfo.url;
        fetchRef := fetchInfo.ref;
      } else {
        return Err(NoFetchInfo(fetchProtocol));
      }
    }
    return Ok(["fetch", fetchUrl, fetchRef]);
  }

  /** An explicit URL is used with the revision's own ref; the protocol and the fetch map play no part. */
  lemma ExplicitUrlWins(params: InParams, rev: RevisionInfo, protocol: string, fetch: map<string, FetchInfo>)
    requires params.fetchUrl != ""
    ensures ResolvedFetchArgs(params, rev) == Ok(["fetch", params.fetchUrl, rev.ref])
    ensures ResolvedFetchArgs(params.(fetchProtocol := protocol), rev.(fetch := fetch))
         == ResolvedFetchArgs(params, rev)
  {
  }

  /** A requested protocol that the revision offers supplies both the URL and the ref. */
  lemma ExplicitProtocolUsed(params: InParams, rev: RevisionInfo)
    requires params.fetchUrl == "" && params.fetchProtocol != ""
    requires params.fetchProtocol in rev.fetch
    ensures ResolvedFetchArgs(params, rev)
         == Ok(["fetch", rev.fetch[params.fetchProtocol].url, rev.fetch[params.fetchProtocol].ref])
  {
  }

  /** With nothing requested, "http" is fetched whenever the revision offers it. */
  lemma HttpPreferred(params: InParams, rev: RevisionInfo)
    requires params.fetchUrl == "" && params.fetchProtocol == ""
    requires "http" in rev.fetch
    ensures ResolvedFetchArgs(params, rev) == Ok(["fetch", rev.fetch["http"].url, rev.fetch["http"].ref])
  {
  }

  /** With nothing requested and no "http" entry, "anonymous http" is fetched if offered. */
  lemma AnonymousHttpFallback(params: InParams, rev: RevisionInfo)
    requires params.fetchUrl == "" && params.fetchProtocol == ""
    requires "http" !in rev.fetch && "anonymous http" in rev.fetch
    ensures ResolvedFetchArgs(params, rev)
         == Ok(["fetch", rev.fetch["anonymous http"].url, rev.fetch["anonymous http"].ref])
  {
  }

  /** A requested protocol the revision lacks is an error, even when a default protocol is offered. */
  lemma NoFallbackFromExplicitProtocol(params: InParams, rev: RevisionInfo)
    requires params.fetchUrl == "" && params.fetchProtocol != ""
    requires params.fetchProtocol !in rev.fetch
    ensures ResolvedFetchArgs(params, rev) == Err(NoFetchInfo(params.fetchProtocol))
  {
  }

  /** With nothing requested and no default offered, the lookup is on the empty protocol name. */
  lemma NoDefaultLooksUpEmptyName(params: InParams, rev: RevisionInfo)
    requires params.fetchUrl == "" && params.fetchProtocol == ""
    requires "http" !in rev.fetch && "anonymous http" !in rev.fetch
    ensures "" in rev.fetch ==> ResolvedFetchArgs(params, rev) == Ok(["fetch", rev.fetch[""].url, rev.fetch[""].ref])
    ensures "" !in rev.fetch ==> ResolvedFetchArgs(params, rev) == Err(NoFetchInfo(""))
  {
  }
}
