/**
 The values the Gerrit resource exchanges with its collaborators: the
 review service's change and revision records, the pipeline's version,
 response metadata, and the errors an invocation can end with.
 */
module GerritTypes {

  datatype Option<+T> = None | Some(value: T)

  /** A computation that either yields a value or fails with an `Error`. */
  datatype Result<+T> = Ok(value: T) | Err(error: Error)

  /** Every way `in` or `out` can fail; each one ends the invocation. */
  datatype Error =
    | NoFetchInfo(protocol: string)                  // no fetch entry for the selected protocol
    | FetchArgsUnresolved(change: string, cause: Error) // `in` wraps the resolver's error with the change id
    | ClientSetup                                    // the review-service client could not be set up
    | ChangeLookup                                   // the requested change/revision could not be fetched
    | GitFailed                                      // a git invocation exited unsuccessfully
    | ConfigArgs                                     // the authentication config arguments could not be produced
    | WriteVersion                                   // the version marker file could not be written
    | BadUrl                                         // the service's base URL does not parse
    | RepositoryRequired                             // `out` was given no `repository` parameter
    | ReadVersion                                    // the version marker file could not be read
    | NoFallbackMessage                              // message file unreadable and no message given
    | SendReview                                     // the review service refused the review

  /** Where and what to fetch for one protocol. */
  datatype FetchInfo = FetchInfo(url: string, ref: string)

  datatype AccountInfo = AccountInfo(name: string, email: string)

  /** One patch set of a change, with its fetch options keyed by protocol name. */
  datatype RevisionInfo = RevisionInfo(
    patchSetNumber: int,
    uploader: Option<AccountInfo>,
    ref: string,
    fetch: map<string, FetchInfo>)

  datatype ChangeInfo = ChangeInfo(id: string, project: string, subject: string, changeNumber: int)

  /** The pipeline's version: a change and one of its revisions. */
  datatype Version = Version(changeId: string, revision: string)

  /** One key/value line of a response's metadata. */
  datatype MetadataField = MetadataField(key: string, value: string)
}
