# Gerrit resource for Concourse: fetch resolution, `in` and `out`

This project models the decision logic of a Concourse resource that bridges
a Gerrit code-review server and a CI pipeline, and proves properties of it in
Dafny. It covers:

- **Fetch-argument resolution** (`FetchArgs`). An explicit fetch URL wins and
  is paired with the revision's own ref. Otherwise a protocol is chosen: the
  requested one, or else the first of `"http"`, `"anonymous http"` that the
  revision offers. That protocol's URL and ref are then used. A protocol
  without a fetch entry is an error, and there is no fallback.
  `ResolveFetchArgs` is the step-by-step version, a loop with an early exit.
  It is proved equal to the declarative `ResolvedFetchArgs`.
- **git invocation** (`GitExec`). Every command is prefixed with `-C <dir>`.
  The process-global git executor becomes a `GitExecutor` object. Its
  `succeeds` function says which invocations succeed, and its `trace` records
  every invocation in order.
- **The revision link** (`RevisionLink`, with `DecimalFormat` for `%d`). The
  link is the base URL with `c/<change>/<patch set>` joined onto its path. It
  is proved to read back into the base without its trailing slashes, and the
  change and patch-set numbers it was built from. Numbers are read back only
  from the text `%d` prints, so a link that reads back is the one built from
  what it reads back to.
- **`in`** (`GerritIn`). It runs a fixed sequence of git commands: `init`,
  `config color.ui always`, the authentication config, the fetch, and
  `checkout FETCH_HEAD`. The first failure ends the run. Then it reports
  project, subject, uploader (when known) and link (when buildable) as
  response metadata.
- **`out`** (`GerritOut`). `out` requires the `repository` parameter and
  reads back the stored version. It then picks the review message: the
  message file's contents win, `message` is the fallback, and `out` fails
  when neither is available. Finally it posts one review on the stored change
  and revision, with the labels passed through unchanged.

Outcomes of collaborators are parameters, not calls: setting up the review
client, looking up the revision, producing the authentication config
arguments, parsing the base URL, reading and writing the version marker file,
reading the message file, and the service's answer to a review.

## Model

| member | source | states |
|---|---|---|
| `FetchArgs.FirstPresent` | gerrit/in.go:153-158 | The result is the index of a listed protocol that the fetch map has, with no earlier listed protocol in the map. It is `None` exactly when no listed protocol is in the map. |
| `FetchArgs.DefaultProtocol` | gerrit/in.go:151-158 | With nothing requested, `"http"` is chosen if offered, else `"anonymous http"` if offered, else the empty name. |
| `FetchArgs.ResolvedFetchArgs` | gerrit/in.go:147-169 | A success is always `fetch <url> <ref>`. An error arises only when no URL was given, and it names the selected protocol. |
| `FetchArgs.ResolveFetchArgs` | gerrit/in.go:147-169 | The loop-and-break resolution returns exactly `ResolvedFetchArgs`, on every input. |
| `FetchArgs.ExplicitUrlWins` | gerrit/in.go:148-150 | A non-empty fetch URL gives `fetch <url> <rev.ref>`. Changing the requested protocol or the fetch map does not change the result. |
| `FetchArgs.ExplicitProtocolUsed` | gerrit/in.go:160-163 | A requested protocol the revision offers supplies both the URL and the ref of the fetch. |
| `FetchArgs.HttpPreferred` | gerrit/in.go:152-158 | With nothing requested, `"http"` is fetched whenever offered, even when `"anonymous http"` is offered too. |
| `FetchArgs.AnonymousHttpFallback` | gerrit/in.go:152-158 | With nothing requested and no `"http"` entry, `"anonymous http"` is fetched if offered. |
| `FetchArgs.NoFallbackFromExplicitProtocol` | gerrit/in.go:160-166 | A requested protocol the revision lacks is an error naming that protocol, even when a default protocol is offered. |
| `FetchArgs.NoDefaultLooksUpEmptyName` | gerrit/in.go:151-166 | With nothing requested and no default offered, the entry under the empty name is used if present. Otherwise the error names the empty protocol. |
| `DecimalFormat.Decimal` | gerrit/in.go:191 | `%d` output is non-empty digits with an optional leading minus sign, present exactly for negative numbers. There is no leading zero, except in `0` itself, and no `/`. |
| `DecimalFormat.DecimalRoundTrip` | gerrit/in.go:191 | Every integer is read back from its decimal text. |
| `DecimalFormat.NatDigitsOfValue` | gerrit/in.go:191 | Digits without a leading zero are exactly the digits `%d` prints for their value. |
| `DecimalFormat.ParseDecimalCanonical` | gerrit/in.go:191 | The only text that reads back as a number is the text `%d` prints for it. |
| `GitExec.GitArgs` | gerrit/in.go:171-172 | git receives `-C`, then `dir`, then the command's arguments in their order. |
| `GitExec.GitArgsSplit` | gerrit/in_test.go:78-91 | A git stand-in that reads the word after `-C` recovers the directory and the exact command. |
| `GitExec.GitExecutor.Exec` | gerrit/in.go:174 | Each invocation is appended to the trace. Its success is what the executor's outcome function says. |
| `GitExec.Git` | gerrit/in.go:171-180 | Exactly one invocation, `-C dir args`, is recorded. The result is an error exactly when that invocation fails. |
| `GitExec.FirstFailure` | gerrit/in.go:83-108 | Every command before the returned index succeeds, and the command at that index, if any, fails. |
| `GitExec.IssuedUpTo` | gerrit/in.go:83-108 | A run whose first failure is at `k` issues the commands up to and including `k`, and no later command. |
| `GitExec.IssuedAll` | gerrit/in.go:83-108 | A run in which every command succeeds issues all of them. |
| `RevisionLink.TrimTrailingSlashes` | gerrit/in.go:191 | The result is a prefix of the path that does not end in `/`. Only slashes were removed. |
| `RevisionLink.BuildRevisionLink` | gerrit/in.go:186-193 | The result is an error exactly when the base URL did not parse. On success the link starts with the base URL's origin. |
| `RevisionLink.RevisionLinkRoundTrip` | gerrit/in.go:186-193 | The link reads back as the base (origin plus path, trailing slashes dropped) followed by `c/<change>/<patch set>`, with the same numbers. |
| `RevisionLink.ParseRevisionLinkCanonical` | gerrit/in.go:186-193 | A text that reads back as a base, a change and a patch set is exactly `<base>/c/<change>/<patch set>`, with the numbers as `%d` prints them. |
| `RevisionLink.RevisionLinkExample` | gerrit/in_test.go:75 | The base `https://example.com/path` with change 1 and patch set 1 gives `https://example.com/path/c/1/1`. |
| `GerritIn.InRequest.AddResponseMetadata` | gerrit/in.go:111-118 | Adding a metadata field appends it after the fields already present. |
| `GerritIn.ResponseMetadataFields` | gerrit/in.go:110-121 | Project and subject always come first. An `uploader` field, `Name <email>`, exists exactly when the revision has an uploader. A `link` field exists exactly when the link could be built. |
| `GerritIn.CheckoutRevision` | gerrit/in.go:82-108 | The trace gains `init`, `config color.ui always`, the config arguments, the fetch and `checkout FETCH_HEAD`, in that order, stopping after the first failure. Without config arguments, at most the first two run. If both succeed, the result is `ConfigArgs`. |
| `GerritIn.ReportRevision` | gerrit/in.go:110-121 | The metadata gains exactly the revision's fields, in order. A link that cannot be built is omitted and is not an error. |
| `GerritIn.In` | gerrit/in.go:52-145 | If client set-up, lookup or fetch resolution fails, the error is returned and no git command runs. Otherwise the trace is the checkout run and the first failure is returned with no metadata added. After a full checkout the metadata is added, and the result depends only on the version-file write, never on the link. |
| `GerritOut.OutRequest.SetResponseVersion` | gerrit/out.go:63 | The response version becomes the given version. |
| `GerritOut.ReviewClient.SetReview` | gerrit/out.go:91-94 | One review, on the given change and revision with the given input, is posted. Its success is the service's answer. |
| `GerritOut.ReviewMessage` | gerrit/out.go:65-81 | With no message file the message is `message`. A readable file's contents override it. An unreadable file falls back to a non-empty `message`, and otherwise fails with `NoFallbackMessage`. |
| `GerritOut.NoMessageFileIgnoresRead` | gerrit/out.go:66-68 | Without a message file, the outcome of reading one makes no difference. |
| `GerritOut.MessageEmptyOnlyByChoice` | gerrit/out.go:66-81 | An empty review message comes only from an empty `message` with no file named, or from an empty file. |
| `GerritOut.Out` | gerrit/out.go:41-100 | An empty `repository`, or an unreadable version file, is an error with no version set and no review sent. Otherwise the response version is the version read. A message or client failure sends nothing. Otherwise exactly one review is sent on (change id, revision) with the chosen message and the labels unchanged, and the result is an error exactly when the service refuses it. |

## Left out

- Request decoding, logging, `init` registration and the authentication manager's temporary cookie file and its clean-up are plumbing with no decision logic.
- The Gerrit REST client and `getVersionChangeRevision` are network I/O. Their code is not part of this model, so their outcomes are the `clientOk` and `lookup` parameters of `In`, and `clientOk` and the review client's `accepts` function in `Out`.
- `gitConfigArgs` is not part of this model. Its outcome is a parameter: the arguments, or `None` when they cannot be produced.
- The git executor decides each invocation's outcome from its arguments alone. A stand-in that changes behaviour between calls is not modelled. git's combined output is only logged and is left out.
- `url.Parse` and the cleaning done by `path.Join` come from Go's libraries. The parse outcome is an input (`Url` = origin + path). The join only drops trailing slashes from the base path before appending `/c/<n>/<m>`. Dot segments, repeated slashes inside the base path, and query and fragment are not modelled. `URL.String()` re-escapes the path, and that is not modelled either. With an empty path and no host, Go produces the relative `c/<n>/<m>`, while the model gives `/c/<n>/<m>`.
- The version marker file: the paths built with `filepath.Join`, the JSON encoding, and the write/read round trip of `Version` are not part of this model, because the `Version` type and its file code are not part of it. The write outcome is the `writeOk` parameter of `In`, and the read result is the `versionRead` parameter of `Out`.
- Appending the marker file's name to `.git/info/exclude` only logs its failure and changes nothing the model observes, so it is left out.
- The message file's path and read are the `fileRead` parameter of `Out`. The reason a read failed is not modelled.
- `Version` keeps only the change id and revision. Its creation time, and the version ordering used by `check`, are not part of this model.
- Fetch-map entries are nullable references in Go and may be nil. The model's entries are plain values, so the nil dereference the Go code would panic on cannot occur.
- Change and patch-set numbers are unbounded integers. Go's `int` prints the same for every value it can hold.
- Errors are modelled as kinds (`Error`), not as the formatted message text.
- The response version of `in` is not set in gerrit/in.go, so it is not modelled.
- A missing protocol is a plain error naming the protocol (`NoFetchInfo`). There is no separate not-found kind.
