/**
 The resource's `out` step: read back the version that `in` recorded,
 choose the review message, and post one review on that revision.

 The reads of the version marker file and of the message file, the
 set-up of the review-service client and the service's answer to the
 review are collaborators outside this model; their outcomes are
 parameters.
 */
module GerritOut {
  import opened GerritTypes

  /** The parameters of `out`; "" means unset. */
  datatype OutParams = OutParams(
    repository: string,
    message: string,
    messageFile: string,
    labels: map<string, int>)

  datatype ReviewInput = ReviewInput(message: string, labels: map<string, int>)

  /** A review posted on revision `revision` of change `changeId`. */
  datatype Review = Review(changeId: string, revision: string, input: ReviewInput)

  /** The pipeline's `out` request: the version reported in the response, once set. */
  class OutRequest {
    const targetDir: string
    var responseVersion: Option<Version>

    constructor (targetDir: string)
      ensures this.targetDir == targetDir && responseVersion == None
    {
      this.targetDir := targetDir;
      responseVersion := None;
    }

    method SetResponseVersion(v: Version)
      modifies this
      ensures responseVersion == Some(v)
    {
      responseVersion := Some(v);
    }
  }

  /** The review service: which reviews it accepts, and every review posted to it, oldest first. */
  class ReviewClient {
    const accepts: Review -> bool
    var sent: seq<Review>

    constructor (accepts: Review -> bool)
      ensures this.accepts == accepts && sent == []
    {
      this.accepts := accepts;
      sent := [];
    }

    method SetReview(changeId: string, revision: string, input: ReviewInput) returns (ok: bool)
      modifies this
      ensures sent == old(sent) + [Review(changeId, revision, input)]
      ensures ok == accepts(Review(changeId, revision, input))
    {
      sent := sent + [Review(changeId, revision, input)];
      ok := accepts(Review(changeId, revision, input));
    }
  }

  /**
   The review message, given what reading the message file yielded
   (`fileRead`, consulted only when a message file is named): the file's
   contents win; `message` is the fallback; with neither, `out` fails.
   */
  function ReviewMessage(params: OutParams, fileRead: Option<string>): (r: Result<string>)
    ensures params.messageFile == "" ==> r == Ok(params.message)
    ensures params.messageFile != "" && fileRead.Some? ==> r == Ok(fileRead.value)
    ensures params.messageFile != "" && fileRead.None? && params.message != "" ==> r == Ok(params.message)
    ensures r.Err? <==> params.messageFile != "" && fileRead.None? && params.message == ""
    ensures r.Err? ==> r.error == NoFallbackMessage
  {
    match (params.messageFile, fileRead)
    case ("", _) => Ok(params.message)
    case (_, Some(contents)) => Ok(contents)
    case (_, None) => if params.message == "" then Err(NoFallbackMessage) else Ok(params.message)
  }

  /** Without a message file the read is never consulted: any outcome gives the same message. */
  lemma NoMessageFileIgnoresRead(params: OutParams, read1: Option<string>, read2: Option<string>)
    requires params.messageFile == ""
    ensures ReviewMessage(params, read1) == ReviewMessage(params, read2) == Ok(params.message)
  {
  }

  /** The message sent is never empty unless it was read from the file or nothing asked for one. */
  lemma MessageEmptyOnlyByChoice(params: OutParams, fileRead: Option<string>)
    requires ReviewMessage(params, fileRead) == Ok("")
    ensures params.messageFile == "" || fileRead == Some("")
  {
  }

  /**
   Runs `out`: `versionRead` is the version read from the marker file in
   the repository, `fileRead` the contents of the message file, `clientOk`
   whether the review-service client could be set up.
   */
  method Out(req: OutRequest, client: ReviewClient, params: OutParams,
             versionRead: Option<Version>, fileRead: Option<string>, clientOk: bool)
    returns (err: Option<Error>)
    modifies req, client
    ensures params.repository == "" ==>
              err == Some(RepositoryRequired) && req.responseVersion == old(req.responseVersion)
    ensures params.repository != "" && versionRead.None? ==>
              err == Some(ReadVersion) && req.responseVersion == old(req.responseVersion)
    ensures params.repository != "" && versionRead.Some? ==> req.responseVersion == versionRead
    ensures params.repository == "" || versionRead.None? || ReviewMessage(params, fileRead).Err? || !clientOk ==>
              client.sent == old(client.sent)
    ensures params.repository != "" && versionRead.Some? && ReviewMessage(params, fileRead).Err? ==>
              err == Some(NoFallbackMessage)
    ensures params.repository != "" && versionRead.Some? && ReviewMessage(params, fileRead).Ok? && !clientOk ==>
              err == Some(ClientSetup)
    ensures params.repository != "" && versionRead.Some? && ReviewMessage(params, fileRead).Ok? && clientOk ==>
              var review := Review(versionRead.value.changeId, versionRead.value.revision,
                                   ReviewInput(ReviewMessage(params, fileRead).value, params.labels));
              && client.sent == old(client.sent) + [review]
              && err == if client.accepts(review) then None else Some(SendReview)
  {
    if params.repository == "" {
      return Some(RepositoryRequired);
    }
    if versionRead.None? {
      return Some(ReadVersion);
    }
    var ver := versionRead.value;
    req.SetResponseVersion(ver);

    // Build the comment message.
    var message := params.message;
    if params.messageFile != "" {
      if fileRead.Some? {
        message := fileRead.value;
      } else if message == "" {
        return Some(NoFallbackMessage);
      }
    }

    // Send the review.
    if !clientOk {
      return Some(ClientSetup);
    }
    var ok := client.SetReview(ver.changeId, ver.revision, ReviewInput(message, params.labels));
    if !ok {
      return Some(SendReview);
    }
    return None;
  }
}
