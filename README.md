# CumulusCI bundle deployment and profile-photo upload, in Dafny

This project models two small CumulusCI tasks and proves properties of the models.

**DeployBundles** (`cumulusci/tasks/salesforce/DeployBundles.py`). Its
`_run_task` joins the `path` option to the working directory. It skips the run
when that is not a directory. Otherwise it deploys every sub-directory of it as
a metadata bundle, in sorted name order, and files are never deployed. Its
`freeze` turns the same sorted listing into plan steps, one per entry. Step
numbers are dotted and 1-based. `kind`, `is_required` and `task_class` are
constant. Each step has one `UpdateDependencies` dependency pointing at
`path/item` at the project's commit.

**UploadProfilePhoto** (`cumulusci/tasks/salesforce/users/photos.py`). It
first resolves exactly one User: by a SOQL `where` clause when one is
given, otherwise as the caller's identity. It then uploads the photo as a
ContentVersion and looks up its ContentDocument. Last, it sets that document
as the User's profile photo through the Connect API. When the platform rejects
the link as a malformed request, the document is deleted and a
`CumulusCIException` is raised that is meant to carry the platform's messages;
as written it reads "None" (see "## Findings"). `_get_query`, which builds a User query from a
`filters` map checked against the described User fields, is modelled too.

Modules, one per concern:

- `Wrappers` (`wrappers.dfy`): `Option` and `Result`.
- `Strings` (`strings.dfy`): `str.join`, `str(n)` for naturals,
  `os.path.basename`, the slice `s[-n:]`, and "occurs in".
- `Ordering` (`ordering.dfy`): Python's `<` on `str`, which compares code
  point by code point with a proper prefix first. It also holds `sorted()` as an
  insertion sort, `os.listdir` as an unordered listing, and the one ascending
  sequence of a set of names.
- `DeployBundles` (`deploy_bundles.dfy`): the file system as a map from a
  directory path to its entries, each entry name mapped to "is a directory".
  `ValidFileSystem` states what a real disk guarantees: entry names are
  non-empty and free of `/`, and an entry is a directory exactly when its
  joined path is listed. A
  `BundleApi` class holds the trace of deployed bundles. A `DeployBundlesTask`
  class has `RunTask` (the loop, in `DeployEach`) and `Freeze`.
- `Photos` (`photos.dfy`): a `Platform` class answers each kind of call from
  fixed `Responses` and appends every call to `log`. A `UploadProfilePhoto`
  class has one method per task method. Each method is proved against a pure
  function giving the calls it makes and the result it returns (`QueryUserRun`,
  `InsertRun`, `LinkRun`, `UploadRun`, ...). The properties of the upload
  (ordering, compensation, the missing-photo and failed-create paths) are
  lemmas about those functions.

Inputs and outputs outside the two CumulusCI classes become parameters:

- **DeployBundles:** the working directory (`pwd`), the file system, and which
  bundles the deploy service rejects.
- **UploadProfilePhoto:** every platform answer (`Responses`) and the photo
  file as seen by `pathlib`: its printed path, whether it exists, its name and
  stem, and the base64 text of its bytes.

Points where the model follows the code rather than the class documentation:

- `_run_task` resolves the User before `_insert_content_document` checks the
  photo path, so a missing photo still costs one query or identity call. It
  never causes a ContentVersion create (`Photos.MissingPhotoCreatesNothing`).
- `freeze` lists `path` relative to the working directory, and a missing
  directory makes `os.listdir` raise. `Freeze` returns that as a `Failure`
  carrying the path instead of a step list.
- `freeze` gives files a step too, so its numbering and the deploy order of
  `_run_task` agree only when the listing holds no files. Two lemmas state
  this: `DeployBundles.DeployOrderMatchesFreeze` and
  `DeployBundles.FreezeCountsFiles`.
- `_get_query` is not called from `_run_task`. `_run_task` sends the raw `where`
  clause, with one leading `WHERE` removed.
- `freeze` lists the raw `path` option, and `os.listdir("")` raises, so an empty
  option fails `Freeze` even though `_run_task` joins it to the working directory.
- The run functions (`QueryUserRun`, `ResolveUserRun`, `LinkRun`, `UploadRun`)
  take a `JoinVersion`: `AsWritten` raises `CumulusCIException(None)` for a
  malformed-request rejection (`RaiseAsWritten`), `AsIntended` raises the
  `"; "`-joined messages (`RaiseFor`). The lemmas about the runs hold for both.
  `UploadRunAsWritten` is `_run_task` as written in both respects: the undefined
  `_get_default_user_id` without `where`, and `UploadRun(AsWritten, ..)` with it.
- The `UploadProfilePhoto` class follows the two corrections recorded under
  "## Findings": its methods are proved against the `AsIntended` runs, and a
  run without `where` calls `get_default_user_id`.
- Every other failure UploadProfilePhoto raises itself is a `CumulusCIException`
  whose text the model states exactly. Platform errors it does not catch,
  including a failing `describe()` or identity call, propagate as `Uncaught`.
  Indexing an empty document query is `IndexError`.

## Model

| member | source | states |
|---|---|---|
| Strings.Join | cumulusci/tasks/salesforce/users/photos.py:13 | definition: `sep.join(xs)`, the pieces in order with `sep` between neighbours |
| Strings.JoinContainsEach | cumulusci/tasks/salesforce/users/photos.py:102 | every piece of a `", ".join(...)` / `"; ".join(...)` occurs in the joined text |
| Strings.JoinSnoc | cumulusci/tasks/salesforce/users/photos.py:13 | joining one more piece appends the separator and that piece, so the join grows by exactly one entry |
| Strings.NatToString | cumulusci/tasks/salesforce/DeployBundles.py:64 | `str(i)` is a non-empty run of decimal digits with no leading zero whose decimal value is `i` |
| Strings.NatToStringInjective | cumulusci/tasks/salesforce/DeployBundles.py:64 | different indices print differently |
| Strings.Basename | cumulusci/tasks/salesforce/DeployBundles.py:47 | `os.path.basename` is the slash-free tail of the path, preceded by `/` when shorter than the path |
| Strings.BasenameOfPlainName | cumulusci/tasks/salesforce/DeployBundles.py:47 | a listed entry name (no `/`) is its own basename |
| Strings.LastN | cumulusci/tasks/salesforce/users/photos.py:111 | for a positive `n`, `s[-n:]` has length `min(len(s), n)` and is a suffix of `s`; the task uses `n = 18` |
| Ordering.Less | cumulusci/tasks/salesforce/DeployBundles.py:28 | definition: Python's `<` on `str`, code point by code point, a proper prefix first |
| Ordering.LessIrreflexive | cumulusci/tasks/salesforce/DeployBundles.py:28 | no name sorts before itself |
| Ordering.LessTransitive | cumulusci/tasks/salesforce/DeployBundles.py:28 | string order is transitive |
| Ordering.LessTotal | cumulusci/tasks/salesforce/DeployBundles.py:28 | of two different names one sorts first |
| Ordering.Insert | cumulusci/tasks/salesforce/DeployBundles.py:28 | inserting into a sorted list keeps it sorted, adds exactly the one name, and keeps it strictly sorted when the name is new |
| Ordering.Sort | cumulusci/tasks/salesforce/DeployBundles.py:28 | `sorted(xs)` is ascending, a permutation of `xs`, and strictly ascending when `xs` has no duplicates |
| Ordering.ListDir | cumulusci/tasks/salesforce/DeployBundles.py:28 | `os.listdir` yields every entry of the directory exactly once, in some order |
| Ordering.SortedSeq | cumulusci/tasks/salesforce/DeployBundles.py:46 | the names of a directory in ascending order: strictly sorted, exactly the entries, one per entry |
| Ordering.StrictlySortedUnique | cumulusci/tasks/salesforce/DeployBundles.py:46 | two strictly ascending lists of the same names are equal, so the sorted listing does not depend on listing order |
| Ordering.SortedListing | cumulusci/tasks/salesforce/DeployBundles.py:46 | `sorted(os.listdir(p))` is the one ascending sequence of p's entries whatever order the listing came in |
| DeployBundles.PathJoin | cumulusci/tasks/salesforce/DeployBundles.py:20 | `os.path.join(a, b)`: an absolute `b` replaces `a`; after an empty `a` or one ending in `/`, `b` follows directly; otherwise `b` follows `a` with one `/` between |
| DeployBundles.DirectoryNames | cumulusci/tasks/salesforce/DeployBundles.py:29-31 | definition: the listed entries marked as directories, in listing order |
| DeployBundles.DirectoryNamesMembers | cumulusci/tasks/salesforce/DeployBundles.py:29-31 | an entry survives the `isdir` filter exactly when it is a listed directory |
| DeployBundles.DirectoryNamesStrictlySorted | cumulusci/tasks/salesforce/DeployBundles.py:28-31 | the filtered directories stay in strictly ascending order, so each is deployed once and in name order |
| DeployBundles.DirectoryNamesAllDirectories | cumulusci/tasks/salesforce/DeployBundles.py:30-31 | with only directories listed, nothing is skipped |
| DeployBundles.BundlePaths | cumulusci/tasks/salesforce/DeployBundles.py:29 | definition: the full path `os.path.join(path, item)` of each directory entry, in order |
| DeployBundles.PathJoinInjective | cumulusci/tasks/salesforce/DeployBundles.py:29 | two different plain entry names joined to the same directory give different paths |
| DeployBundles.BundlePathsDistinct | cumulusci/tasks/salesforce/DeployBundles.py:29 | distinct plain names give distinct bundle paths, one per name |
| DeployBundles.EachBundleDeployedOnce | cumulusci/tasks/salesforce/DeployBundles.py:28-37 | on a valid file system the bundle paths of the sorted directory entries are distinct, and so are the deploys attempted, whichever bundles fail |
| DeployBundles.BundlesStep | cumulusci/tasks/salesforce/DeployBundles.py:29-37 | one more entry adds its bundle path when it is a directory and nothing when it is a file |
| DeployBundles.Attempts | cumulusci/tasks/salesforce/DeployBundles.py:37 | definition: the bundles up to and including the first failing one |
| DeployBundles.AttemptsPrefix | cumulusci/tasks/salesforce/DeployBundles.py:37 | the deploys attempted are a prefix of the bundles: all of them when none fails, else ending at the first failing one with all earlier ones succeeding |
| DeployBundles.WalkStopsAt | cumulusci/tasks/salesforce/DeployBundles.py:37 | a failing deploy is the last one attempted and is one of the bundles |
| DeployBundles.BundleApi.Deploy | cumulusci/tasks/salesforce/DeployBundles.py:40-41 | a deploy appends its bundle to the trace and succeeds unless the service rejects that bundle |
| DeployBundles.DeployBundlesTask.DeployBundle | cumulusci/tasks/salesforce/DeployBundles.py:39-41 | `_deploy_bundle` deploys exactly the given path |
| DeployBundles.DeployBundlesTask.DeployEach | cumulusci/tasks/salesforce/DeployBundles.py:28-37 | the loop deploys the directory entries in listing order, skips files, and stops at the first failing deploy; it completes exactly when no bundle fails; a failure reports the bundle whose deploy failed, the last one attempted |
| DeployBundles.DeployBundlesTask.RunTask | cumulusci/tasks/salesforce/DeployBundles.py:16-37 | a missing path deploys nothing and completes; otherwise the trace grows by the attempted prefix of the sorted directory bundles, failing exactly when some bundle fails; a failure reports the last bundle attempted |
| DeployBundles.FrozenStep | cumulusci/tasks/salesforce/DeployBundles.py:47-70 | the step for the k-th entry is the one `freeze` builds; for a plain entry name the step's name is `Deploy path/item` and its plan path `parent.item` (the basename is the name itself), and its step number is `parent.` followed by digits whose value is k + 1 |
| DeployBundles.FrozenStepsDiffer | cumulusci/tasks/salesforce/DeployBundles.py:46-64 | the steps of two different entries at different indices differ in plan path and in step number |
| DeployBundles.DeployBundlesTask.Freeze | cumulusci/tasks/salesforce/DeployBundles.py:43-71 | fails, carrying the `path` option, exactly when that option is empty or the directory is missing; otherwise one step per sorted entry, files included, each as `FrozenStep` describes |
| DeployBundles.StepNumbersDistinct | cumulusci/tasks/salesforce/DeployBundles.py:64 | the frozen steps' dotted step numbers are pairwise different |
| DeployBundles.DeployOrderMatchesFreeze | cumulusci/tasks/salesforce/DeployBundles.py:46 | when the listing holds only directories, the deployed bundles and the frozen steps cover the same names in the same order |
| DeployBundles.FreezeCountsFiles | cumulusci/tasks/salesforce/DeployBundles.py:46 | with a file `a` and a directory `b`, freeze numbers `a` first while `_run_task` deploys only `b` |
| Photos.MessageOf | cumulusci/tasks/salesforce/users/photos.py:13 | definition: an entry's `message`, or "Unknown error." when it has none |
| Photos.JoinErrors | cumulusci/tasks/salesforce/users/photos.py:12-13 | definition: `join_errors` as intended, the entries' messages joined by `"; "` |
| Photos.JoinErrorsAsWritten | cumulusci/tasks/salesforce/users/photos.py:12-13 | definition: `join_errors` as written, which returns None |
| Photos.RaiseFor | cumulusci/tasks/salesforce/users/photos.py:46-47 | definition: `_raise_cumulusci_exception` as intended, a `CumulusCIException` carrying the joined messages |
| Photos.RaiseAsWritten | cumulusci/tasks/salesforce/users/photos.py:46-47 | definition: `_raise_cumulusci_exception` as written, `CumulusCIException(None)`, which prints as "None" |
| Photos.Raise | cumulusci/tasks/salesforce/users/photos.py:46-47 | definition: `_raise_cumulusci_exception` under the as-written or the intended `join_errors` |
| Photos.JoinErrorsKeepsEveryMessage | cumulusci/tasks/salesforce/users/photos.py:13 | the intended `join_errors` drops no entry: every message, or "Unknown error.", occurs in it; no entries give ""; one more entry adds "; " and its message |
| Photos.JoinErrorsDiscardsMessages | cumulusci/tasks/salesforce/users/photos.py:12-13 | as written, the raised exception reads "None" and loses the platform's message, which the intended join keeps |
| Photos.FieldMap | cumulusci/tasks/salesforce/users/photos.py:49-53 | definition: the described fields keyed by name, a later field replacing an earlier one |
| Photos.FieldMapLastWins | cumulusci/tasks/salesforce/users/photos.py:51-52 | the field map has a key exactly for each described field name, holding the last field of that name |
| Photos.FieldsByName | cumulusci/tasks/salesforce/users/photos.py:50-53 | the loop of `_get_user_fields` builds exactly that map |
| Photos.UploadProfilePhoto.GetUserFields | cumulusci/tasks/salesforce/users/photos.py:49-53 | one describe call; a failing describe propagates uncaught, otherwise the map of the described fields |
| Photos.Clause | cumulusci/tasks/salesforce/users/photos.py:75-78 | definition: `name = 'value'` for a string-like soap type, `name = value` otherwise |
| Photos.ClauseQuotedExactlyForStrings | cumulusci/tasks/salesforce/users/photos.py:75-78 | a clause is `name = 'value'` exactly when the soap type is `xsd:string`, `tns:ID` or `urn:address`, and `name = value` exactly otherwise |
| Photos.Clauses | cumulusci/tasks/salesforce/users/photos.py:59-78 | one clause per filter, in filter order, each built from its field's soap type |
| Photos.FieldError | cumulusci/tasks/salesforce/users/photos.py:63-73 | definition: the "is not found.  Fields are case-sensitive." message for a missing field, the "must be filterable." message otherwise |
| Photos.FirstUnusableFilterFails | cumulusci/tasks/salesforce/users/photos.py:61-73 | the first filter whose field is missing (case-sensitive key) or not filterable decides the failure and its message |
| Photos.AllUsableFiltersSucceed | cumulusci/tasks/salesforce/users/photos.py:80 | with every filter usable, the query is `SELECT Id FROM User WHERE ` and the clauses joined by ` AND ` |
| Photos.BuildFilterQuery | cumulusci/tasks/salesforce/users/photos.py:59-80 | fails exactly when some filter is unusable, with the "is not found.  Fields are case-sensitive." or "must be filterable." message for the first such filter; otherwise returns the conjunctive query |
| Photos.UploadProfilePhoto.GetQuery | cumulusci/tasks/salesforce/users/photos.py:55-80 | `_get_query`: one describe call; a failing describe propagates uncaught, otherwise the outcome above over the described fields |
| Photos.StripWherePrefix | cumulusci/tasks/salesforce/users/photos.py:85 | the stripped clause is a suffix of the given one |
| Photos.UserQuery | cumulusci/tasks/salesforce/users/photos.py:84-86 | definition: `SELECT Id FROM User WHERE ` followed by the stripped clause |
| Photos.StripWhereOnce | cumulusci/tasks/salesforce/users/photos.py:85 | a leading `WHERE` in any case, with one following space if present, is removed, and only once |
| Photos.StripWhereLeavesPlainClause | cumulusci/tasks/salesforce/users/photos.py:84-86 | a clause not starting with `WHERE` is sent unchanged after `SELECT Id FROM User WHERE ` |
| Photos.IdsOf | cumulusci/tasks/salesforce/users/photos.py:91-92 | definition: the rows' `Id` values in row order |
| Photos.SingleUser | cumulusci/tasks/salesforce/users/photos.py:96-108 | succeeds exactly with one id and returns it; zero ids fail with "No Users found."; more fail with the count-and-ids message |
| Photos.AmbiguityMessage | cumulusci/tasks/salesforce/users/photos.py:100-104 | definition: "More than one User found (n): " followed by the ids joined by ", " |
| Photos.SingleUserNamesEveryMatch | cumulusci/tasks/salesforce/users/photos.py:99-104 | with several matches the message contains their number and every id |
| Photos.UserIdFromRecords | cumulusci/tasks/salesforce/users/photos.py:89-108 | the id-collecting loop followed by the exactly-one check |
| Photos.UploadProfilePhoto.GetUserIdByQuery | cumulusci/tasks/salesforce/users/photos.py:82-108 | one `query_all` of the built query; a malformed-request rejection raises the joined messages (the corrected `join_errors`), other errors propagate, rows go through the exactly-one check |
| Photos.DefaultUserId | cumulusci/tasks/salesforce/users/photos.py:111 | the default user id is the last 18 characters of the identity (all of it when shorter) |
| Photos.UploadProfilePhoto.GetDefaultUserId | cumulusci/tasks/salesforce/users/photos.py:110-115 | one identity call; a failing call propagates uncaught, otherwise its last 18 characters |
| Photos.QueryUserRun | cumulusci/tasks/salesforce/users/photos.py:82-108 | definition: the calls and result of `_get_user_id_by_query`, raising a malformed rejection through the chosen `join_errors` |
| Photos.DefaultUserRun | cumulusci/tasks/salesforce/users/photos.py:110-115 | definition: one identity call, then its failure or its last 18 characters |
| Photos.HasWhere | cumulusci/tasks/salesforce/users/photos.py:159 | definition: `self.options.get("where")` is truthy, that is given and non-empty |
| Photos.ResolveUserRun | cumulusci/tasks/salesforce/users/photos.py:157-161 | definition: the user lookup by query when `where` is truthy, else through `get_default_user_id` |
| Photos.DocumentQuery | cumulusci/tasks/salesforce/users/photos.py:141-143 | definition: the ContentVersion query for the created version's id |
| Photos.InsertRun | cumulusci/tasks/salesforce/users/photos.py:117-149 | definition: the calls and result of `_insert_content_document` |
| Photos.PhotoEndpoint | cumulusci/tasks/salesforce/users/photos.py:168 | definition: `connect/user-profiles/<user id>/photo` |
| Photos.LinkRun | cumulusci/tasks/salesforce/users/photos.py:166-178 | definition: the link POST and, on a malformed rejection, the delete and the error raised through the chosen `join_errors` |
| Photos.UploadRun | cumulusci/tasks/salesforce/users/photos.py:154-178 | definition: `_run_task` calling `get_default_user_id`, with the chosen `join_errors`: user lookup, insert and link, stopping at the first failure |
| Photos.UploadRunAsWritten | cumulusci/tasks/salesforce/users/photos.py:154-178 | definition: `_run_task` as written: failing on `_get_default_user_id` when `where` is not truthy, otherwise `UploadRun` with the as-written `join_errors` |
| Photos.UploadProfilePhoto.InsertContentDocument | cumulusci/tasks/salesforce/users/photos.py:117-149 | no call when the photo is missing; otherwise one create, a failure on `success = false`, then one document query whose first id is returned |
| Photos.UploadProfilePhoto.DeleteContentDocumentById | cumulusci/tasks/salesforce/users/photos.py:151-152 | exactly one delete of the given document |
| Photos.UploadProfilePhoto.ResolveUser | cumulusci/tasks/salesforce/users/photos.py:157-161 | a truthy `where` resolves by query, anything else by the default identity through `get_default_user_id` (the corrected call of line 160) |
| Photos.UploadProfilePhoto.LinkPhoto | cumulusci/tasks/salesforce/users/photos.py:166-178 | one link POST of the document; on a malformed rejection one delete of it, then the joined messages of the corrected `join_errors` (or the delete's own error); other errors propagate |
| Photos.UploadProfilePhoto.RunTask | cumulusci/tasks/salesforce/users/photos.py:154-178 | the whole run, with the corrected `join_errors` and default-user call, appends exactly the calls of user lookup, insert and link, in that order, stopping at the first failure |
| Photos.UserLookupComesFirst | cumulusci/tasks/salesforce/users/photos.py:157-163 | the first platform call is the user query or identity call |
| Photos.MissingPhotoCreatesNothing | cumulusci/tasks/salesforce/users/photos.py:123-127 | a missing photo fails before any `ContentVersion.create`; the only calls are the user lookup's |
| Photos.FailedCreateSkipsDocumentQuery | cumulusci/tasks/salesforce/users/photos.py:134-141 | `success = false` fails with the platform's errors, and no document query follows the create |
| Photos.LinkDeletes | cumulusci/tasks/salesforce/users/photos.py:166-177 | the link step deletes once when the link is rejected as malformed, else never |
| Photos.DeletesExactlyOnRejectedLink | cumulusci/tasks/salesforce/users/photos.py:166-178 | a run deletes exactly once when user, insert succeeded and the link is rejected, and never otherwise |
| Photos.RejectedLinkDeletesOnce | cumulusci/tasks/salesforce/users/photos.py:172-178 | after a rejected link the last two calls are the link and the delete of the created document, then the run fails |
| Photos.SuccessDeletesNothing | cumulusci/tasks/salesforce/users/photos.py:166-171 | a successful run ends with the link of the created document for the resolved user and deletes nothing |
| Photos.DefaultUserPathFailsAsWritten | cumulusci/tasks/salesforce/users/photos.py:160 | as written, a run without `where` fails on the missing `_get_default_user_id` before any call |
| Photos.RejectionsReadNoneAsWritten | cumulusci/tasks/salesforce/users/photos.py:94 | as written, a malformed rejection of the user query, or of the link with the delete succeeding, fails the run with an exception reading "None" |
| Photos.DefaultUserPathUsesIdentity | cumulusci/tasks/salesforce/users/photos.py:110-115 | as intended, a run without `where` makes one identity call; a failing call ends the run there, otherwise the photo is linked for its last 18 characters |

## Left out

- Logging (`self.logger.*`): no behaviour depends on it.
- The Salesforce client (`describe`, `query_all`, `query`, `ContentVersion.create`, `restful`, `ContentDocument.delete`): each is a `Platform` method that answers from fixed `Responses` and records the call, so a response can not depend on earlier calls.
- Reading the photo and base64-encoding it, and `pathlib`'s `name`, `stem` and `str(path)`: taken as fields of `PhotoFile`.
- `json.dumps` of the link body and of `task_config`: the link call carries the document id, and a frozen step holds `task_config` as a structured value.
- DeployBundles.FileSystem: paths are not normalised; the map is keyed by the exact joined string, so `d` and `d/` are different directories, and `_run_task` with an empty or trailing-slash `path` option depends on how the caller keyed the map.
- `os.getcwd`, `os.path.isdir` and `os.listdir`: the working directory and the file system are parameters; `os.path.join` is modelled for POSIX paths only.
- The `Deploy` base class and `_get_api` (`DeployBundles.py:39-41`): a deploy is a trace event that succeeds or fails by whether the bundle is in `BundleApi.failing`; a failure stands for the exception that ends `_run_task`.
- `task_options`, `task_docs` and option parsing: the options arrive already parsed (`where` as an optional string, filters as name/value text pairs).
- `BaseSalesforceApiTask` is not part of this model, so whether it supplies `_get_default_user_id` is not known here.
- Photos.Lower: only ASCII letters are case-folded, which covers every character that can match the letters of `WHERE` under `re.I`.
- Photos.UploadProfilePhoto.GetDefaultUserId: an identity answer without an `identity` key (a `KeyError`) is not modelled; a successful identity call carries the identity text.
- Photos.UploadProfilePhoto.GetUserIdByQuery: a row without an `Id` key (a `KeyError`) is not modelled; every row carries an id.

## Findings

| source | as written | input that shows it | evidently intended | confidence | as-written member | corrected member |
|---|---|---|---|---|---|---|
| cumulusci/tasks/salesforce/users/photos.py:12-13 | `join_errors` builds the joined messages but has no `return`, so `_raise_cumulusci_exception` raises `CumulusCIException(None)` | a rejection whose content is `[{"message": "INVALID_FIELD"}]`: the exception reads "None" | return the `"; "`-joined messages | high, not executed | Photos.JoinErrorsDiscardsMessages | Photos.JoinErrorsKeepsEveryMessage |
| cumulusci/tasks/salesforce/users/photos.py:160 | `_run_task` calls `self._get_default_user_id()`, but the file defines `get_default_user_id` (line 110) | options without `where`: the attribute lookup fails before any platform call | call `get_default_user_id` | medium (the base class could define the name), not executed | Photos.DefaultUserPathFailsAsWritten | Photos.DefaultUserPathUsesIdentity |
