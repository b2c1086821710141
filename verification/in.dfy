/**
 The resource's `in` step: look up the requested revision, check it out
 into the target directory with a fixed sequence of git commands, and
 describe it in the response metadata.

 The review-service client, the revision lookup, the authentication
 config arguments, the parse of the base URL and the write of the
 version marker file are collaborators outside this model; their
 outcomes are parameters.
 */
module GerritIn {
  import opened GerritTypes
  import opened FetchArgs
  import opened GitExec
  import opened RevisionLink

  /** The pipeline's `in` request: the directory to populate and the response metadata built so far. */
  class InRequest {
    const targetDir: string
    var metadata: seq<MetadataField>

    constructor (targetDir: string)
      ensures this.targetDir == targetDir && metadata == []
    {
      this.targetDir := targetDir;
      metadata := [];
    }

    method AddResponseMetadata(key: string, value: string)
      modifies this
      ensures metadata == old(metadata) + [MetadataField(key, value)]
    {
      metadata := metadata + [MetadataField(key, value)];
    }
  }

  /** An uploader as `Name <email>`. */
  function UploaderText(a: AccountInfo): string
  {
    a.name + " <" + a.email + ">"
  }

  predicate HasKey(m: seq<MetadataField>, key: string)
  {
    exists i :: 0 <= i < |m| && m[i].key == key
  }

  /** The metadata `in` reports for a checked-out revision, in the order it is added. */
  function ResponseMetadata(change: ChangeInfo, rev: RevisionInfo, link: Result<string>): seq<MetadataField>
  {
    [MetadataField("project", change.project), MetadataField("subject", change.subject)]
    + (if rev.uploader.Some? then [MetadataField("uploader", UploaderText(rev.uploader.value))] else [])
    + (if link.Ok? then [MetadataField("link", link.value)] else [])
  }

  /**
   Project and subject are always reported, first; the uploader exactly
   when the revision has one; the link exactly when it could be built.
   */
  lemma ResponseMetadataFields(change: ChangeInfo, rev: RevisionInfo, link: Result<string>)
    ensures var m := ResponseMetadata(change, rev, link);
      && |m| >= 2
      && m[0] == MetadataField("project", change.project) && m[1] == MetadataField("subject", change.subject)
      && (HasKey(m, "uploader") <==> rev.uploader.Some?)
      && (rev.uploader.Some? ==> MetadataField("uploader", UploaderText(rev.uploader.value)) in m)
      && (HasKey(m, "link") <==> link.Ok?)
      && (link.Ok? ==> MetadataField("link", link.value) in m)
  {
    var m := ResponseMetadata(change, rev, link);
    assert forall i :: 0 <= i < |m| ==>
      || m[i].key == "project" || m[i].key == "subject"
      || (m[i].key == "uploader" && rev.uploader.Some?) || (m[i].key == "link" && link.Ok?);
    assert "project" != "uploader" && "subject" != "uploader" && "link" != "uploader";
    assert "project" != "link" && "subject" != "link";
    assert rev.uploader.Some? ==> m[2].key == "uploader";
    assert link.Ok? ==> m[|m| - 1].key == "link";
  }

  /**
   The git commands `in` runs in `dir`, in order: initialise, enable colour,
   apply the authentication config, fetch, check out. Without config
   arguments the run cannot go past the first two.
   */
  function Planned(dir: string, configArgs: Option<seq<string>>, fetchArgs: seq<string>): seq<seq<string>>
  {
    [GitArgs(dir, ["init"]), GitArgs(dir, ["config", "color.ui", "always"])]
    + match configArgs
      case None => []
      case Some(cfg) => [GitArgs(dir, cfg), GitArgs(dir, fetchArgs), GitArgs(dir, ["checkout", "FETCH_HEAD"])]
  }

  /**
   Why a checkout running `cmds` stops: the first git command that fails,
   else missing authentication config arguments; `None` when it completes.
   */
  function CheckoutError(succeeds: seq<string> -> bool, cmds: seq<seq<string>>, configArgs: Option<seq<string>>): Option<Error>
  {
    if FirstFailure(succeeds, cmds) < |cmds| then Some(GitFailed)
    else if configArgs.None? then Some(ConfigArgs)
    else None
  }

  /** Whether `in` gets as far as having fetch arguments. */
  predicate Resolves(clientOk: bool, lookup: Option<(ChangeInfo, RevisionInfo)>, params: InParams)
  {
    clientOk && lookup.Some? && ResolvedFetchArgs(params, lookup.value.1).Ok?
  }

  /**
   Prepares the repository in `dir` and checks out the fetched revision,
   stopping at the first git command that fails or when the authentication
   config arguments are missing.
   */
  method CheckoutRevision(executor: GitExecutor, dir: string, configArgs: Option<seq<string>>, fetchArgs: seq<string>)
    returns (err: Option<Error>)
    modifies executor
    ensures executor.trace == old(executor.trace) + Issued(executor.succeeds, Planned(dir, configArgs, fetchArgs))
    ensures err == CheckoutError(executor.succeeds, Planned(dir, configArgs, fetchArgs), configArgs)
  {
    ghost var cmds := Planned(dir, configArgs, fetchArgs);
    assert cmds[0] == GitArgs(dir, ["init"]) && cmds[1] == GitArgs(dir, ["config", "color.ui", "always"]);
    err := Git(executor, dir, ["init"]);
    assert executor.trace == old(executor.trace) + cmds[..1];
    if err.Some? {
      IssuedUpTo(executor.succeeds, cmds, 0);
      return;
    }
    err := Git(executor, dir, ["config", "color.ui", "always"]);
    assert executor.trace == old(executor.trace) + cmds[..2];
    if err.Some? {
      IssuedUpTo(executor.succeeds, cmds, 1);
      return;
    }
    if configArgs.None? {
      IssuedAll(executor.succeeds, cmds);
      return Some(ConfigArgs);
    }
    assert |cmds| == 5 && cmds[2] == GitArgs(dir, configArgs.value);
    err := Git(executor, dir, configArgs.value);
    assert executor.trace == old(executor.trace) + cmds[..3];
    if err.Some? {
      IssuedUpTo(executor.succeeds, cmds, 2);
      return;
    }
    assert cmds[3] == GitArgs(dir, fetchArgs);
    err := Git(executor, dir, fetchArgs);
    assert executor.trace == old(executor.trace) + cmds[..4];
    if err.Some? {
      IssuedUpTo(executor.succeeds, cmds, 3);
      return;
    }
    assert cmds[4] == GitArgs(dir, ["checkout", "FETCH_HEAD"]);
    err := Git(executor, dir, ["checkout", "FETCH_HEAD"]);
    assert executor.trace == old(executor.trace) + cmds;
    if err.Some? {
      IssuedUpTo(executor.succeeds, cmds, 4);
      return;
    }
    IssuedAll(executor.succeeds, cmds);
  }

  /** Adds the revision's metadata to the response; a link that cannot be built is left out. */
  method ReportRevision(req: InRequest, change: ChangeInfo, rev: RevisionInfo, parsedUrl: Option<Url>)
    modifies req
    ensures req.metadata == old(req.metadata)
      + ResponseMetadata(change, rev, BuildRevisionLink(parsedUrl, change.changeNumber, rev.patchSetNumber))
  {
    req.AddResponseMetadata("project", change.project);
    req.AddResponseMetadata("subject", change.subject);
    if rev.uploader.Some? {
      req.AddResponseMetadata("uploader", UploaderText(rev.uploader.value));
    }
    var link := BuildRevisionLink(parsedUrl, change.changeNumber, rev.patchSetNumber);
    if link.Ok? {
      req.AddResponseMetadata("link", link.value);
    }
  }

  method In(req: InRequest, executor: GitExecutor, params: InParams, clientOk: bool,
            lookup: Option<(ChangeInfo, RevisionInfo)>, configArgs: Option<seq<string>>,
            parsedUrl: Option<Url>, writeOk: bool)
    returns (err: Option<Error>)
    modifies req, executor
    ensures !clientOk ==> err == Some(ClientSetup)
    ensures clientOk && lookup.None? ==> err == Some(ChangeLookup)
    ensures clientOk && lookup.Some? && ResolvedFetchArgs(params, lookup.value.1).Err? ==>
              err == Some(FetchArgsUnresolved(lookup.value.0.id, ResolvedFetchArgs(params, lookup.value.1).error))
    ensures !Resolves(clientOk, lookup, params) ==>
              executor.trace == old(executor.trace) && req.metadata == old(req.metadata)
    ensures Resolves(clientOk, lookup, params) ==>
              var cmds := Planned(req.targetDir, configArgs, ResolvedFetchArgs(params, lookup.value.1).value);
              executor.trace == old(executor.trace) + Issued(executor.succeeds, cmds)
    ensures Resolves(clientOk, lookup, params) ==>
              var cmds := Planned(req.targetDir, configArgs, ResolvedFetchArgs(params, lookup.value.1).value);
              var checkout := CheckoutError(executor.succeeds, cmds, configArgs);
              checkout.Some? ==> err == checkout && req.metadata == old(req.metadata)
    ensures Resolves(clientOk, lookup, params) ==>
              var (change, rev) := lookup.value;
              var cmds := Planned(req.targetDir, configArgs, ResolvedFetchArgs(params, rev).value);
              CheckoutError(executor.succeeds, cmds, configArgs).None? ==>
                && req.metadata == old(req.metadata)
                     + ResponseMetadata(change, rev, BuildRevisionLink(parsedUrl, change.changeNumber, rev.patchSetNumber))
                && err == if writeOk then None else Some(WriteVersion)
  {
    if !clientOk {
      return Some(ClientSetup);
    }
    if lookup.None? {
      return Some(ChangeLookup);
    }
    var (change, rev) := lookup.value;

    var fetchArgs := ResolveFetchArgs(params, rev);
    if fetchArgs.Err? {
      return Some(FetchArgsUnresolved(change.id, fetchArgs.error));
    }

    err := CheckoutRevision(executor, req.targetDir, configArgs, fetchArgs.value);
    if err.Some? {
      return;
    }

    ReportRevision(req, change, rev, parsedUrl);

    if !writeOk {
      return Some(WriteVersion);
    }
    return None;
  }
}
