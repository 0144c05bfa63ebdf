# postreview: choosing the diff base, modelled in Dafny

`hg postreview` is a Mercurial extension. It posts a changeset to a Review Board server as a
new review request, or updates an existing request. Before it can upload anything it has to
settle three revisions:

- the **target**: the revision under review;
- the **parent**: the base the diff is taken against (`--parent`, `-g/--outgoingchanges`,
  `--branch`, or the target's first parent);
- the **remote parent**: the base of the extra "parent diff", for when the parent is not on
  the server (`--master`, `-O <repo>`, `-o`).

It then builds the changeset listing and the request fields. Finally it creates or updates the
request, choosing the server repository when it creates one.

The repository keeps three versions of the extension, and this project models each separately:

| module | file | version |
|---|---|---|
| `Postreview` | `mercurial_reviewboard/__init__.py` | 4.1.0, the newest |
| `HgReviewboard` | `hg_reviewboard.py` | 3.1.0 |
| `LegacyPostreview` | `__init__.py` | the oldest; one inline procedure |

Shared modules:

- `Base`: Option, Result, the ways a run stops (`Failure`) and server replies (`Reply`).
- `Text`: Python 2 string operations on `seq<char>`: `splitlines()[0]`, `strip`, `lower`,
  `str`/`int` of integers, `join`/`split`.
- `History`: the revision log the Mercurial backend exposes, and the spec functions behind the
  loops of `remoteparent`, `find_branch_parent` and `find_contexts`. The log holds revisions with
  first and second parents, the null revision −1, branch labels, descriptions and short hashes.
  The backend also supplies `repo[spec]` name resolution, `nodesbetween`, and the outgoing lists.
- `HgUi`: the `[reviewboard]` configuration and `ui.expandpath`.
- `ReviewBoard`: repositories, server replies and the log of server calls. Also the
  case-insensitive sort by name and the request URL.
- `Command`: pieces the versions share: the flag-combination test, the changeset listing, the
  target-field loop and the repository-id loops.
- `Variants`: lemmas that compare the versions, and the concrete situations of the test suite.

Loops in the source are methods with loop invariants. Each is proved equal to a spec function:

| method | spec function |
|---|---|
| `FindBranchParent` | `BranchParent` |
| `FindContexts` | `History.Collected` |
| `FirstOutgoingParent` | `History.RemoteParentOf` |
| `MatchRepository` | `LastMatch` |
| `CollectIds` | `ListedIds` |
| `FillTargets` | `AddTargets` |
| `FindReviewboardRepoId` | `RepoIdChoice` |
| `ChooseRepository` (oldest version) | `RepositoryChoice` |

Lemmas about each spec function state what it means.

How the world outside the extension is represented:

- The Review Board server is a `Client` value that holds the reply to each kind of call.
- A run returns its outcome together with the sequence of server calls it made.
- Diff text is an opaque function of two revisions.
- The answer typed at the repository-id prompt, and the lines typed under `--interactive`, are
  parameters.

## Model

| member | source | states |
|---|---|---|
| Postreview.FindServer | mercurial_reviewboard/__init__.py:422-429 | --server wins over the configured server; aborts with the server message exactly when both are empty |
| Postreview.CheckParentOptions | mercurial_reviewboard/__init__.py:371-384 | aborts exactly when two of --parent/-g/--branch are given (three pass), or -g is given without -o or -O |
| Postreview.RemotePathPrecedence | mercurial_reviewboard/__init__.py:363-368 | with no location given, the upstream is the `reviewboard` path, else `default-push`, else `default` |
| Postreview.RemotePath | mercurial_reviewboard/__init__.py:363-368 | the given location expanded; with none, the `reviewboard` path expanded with `default-push`, then with `default`, as fallbacks |
| Postreview.RemoteParent | mercurial_reviewboard/__init__.py:322-340 | fails when the remote cannot be opened; otherwise the first parent of the first outgoing revision leading to the target, or none |
| Postreview.FindRParent | mercurial_reviewboard/__init__.py:71-84 | --master, else -O, else -o, else none; a found remote parent is the first parent of an outgoing ancestor of the target |
| Postreview.RParentPrecedence | mercurial_reviewboard/__init__.py:76-83 | the remote parent follows the precedence master > outgoingrepo > outgoing > none |
| Postreview.BranchParentIsFirstOffBranch | mercurial_reviewboard/__init__.py:387-404 | the branch parent is the first revision down the first-parent chain that is off the target's branch, or the null revision when the whole chain is on it; always an ancestor |
| Postreview.FindBranchParent | mercurial_reviewboard/__init__.py:387-404 | the walk terminates and returns the branch parent |
| Postreview.FindParent | mercurial_reviewboard/__init__.py:87-100 | -g gives the remote parent; else --parent gives its lookup, failing only when unknown; else --branch gives the branch parent; else the first parent; no parent exactly under -g with no remote parent |
| Postreview.DefaultParentIsAncestor | mercurial_reviewboard/__init__.py:96-99 | without -g and --parent the diff base is an ancestor of the target: its first parent, or the branch parent |
| Postreview.Resolve | mercurial_reviewboard/__init__.py:44-66 | a settled target, remote parent and parent agree with each step; a failure is that of the first failing step, in the order server, option check, revision, remote parent |
| Postreview.NoParentAbortOnlyUnderOutgoingChanges | mercurial_reviewboard/__init__.py:59-64 | the missing-parent abort happens exactly under -g with no remote parent, and its message carries the `hg out` hint |
| Postreview.CreateReviewData | mercurial_reviewboard/__init__.py:103-115 | diff from parent to target; parent diff from the remote parent exactly when one exists (the null revision included) and differs from the parent |
| Postreview.FindContexts | mercurial_reviewboard/__init__.py:407-419 | returns the revisions between parent and target, without the parent, only those on the target's branch under --branch, newest first |
| Postreview.Entry | mercurial_reviewboard/__init__.py:265 | one listing entry: revision number, hash and quoted description, then a dashed separator line |
| Postreview.Fields | mercurial_reviewboard/__init__.py:258-319 | fails with IndexError exactly when the summary must come from an empty description |
| Postreview.RewrittenFieldsOnlyWhenAsked | mercurial_reviewboard/__init__.py:272-309 | summary, description and branch are sent exactly with --update or without an existing request; the summary is --summary, the typed line or the description's first line |
| Postreview.TargetFieldsFromOptionsOrConfig | mercurial_reviewboard/__init__.py:311-317 | groups, people and bugs closed come from the option, else the configuration, and are sent only when non-empty |
| Postreview.CreateFields | mercurial_reviewboard/__init__.py:258-319 | builds the fields by filling the map step by step |
| Postreview.RepoIdChoice | mercurial_reviewboard/__init__.py:215-255 | the repository id `find_reviewboard_repo_id` returns, always a string, or its error; its cases are RepoIdChoiceCases |
| Postreview.RepoIdChoiceCases | mercurial_reviewboard/__init__.py:215-255 | the given or configured id as typed; else the last Mercurial repository whose path matches the upstream; else the prompted id if one of the listed Mercurial ids; else the only repository's id; a refused listing aborts, an empty one raises NameError |
| Postreview.FindReviewboardRepoId | mercurial_reviewboard/__init__.py:215-255 | the loops over the sorted listing settle on that choice; the listing is requested only when no id is given or configured |
| Postreview.UpdateReview | mercurial_reviewboard/__init__.py:194-200 | updates, then publishes under --publish; a refusal aborts with the server's message |
| Postreview.NewReview | mercurial_reviewboard/__init__.py:203-212 | a failed repository choice is the run's error, with no request created; otherwise the request is created in the chosen repository and published under --publish; the request id is the server's |
| Postreview.Submit | mercurial_reviewboard/__init__.py:119-126 | updates the existing request or creates a new one |
| Postreview.SendReview | mercurial_reviewboard/__init__.py:118-136 | logs in before building the fields; the request id is --existing or the new one; reports the request URL |
| Postreview.PostReview | mercurial_reviewboard/__init__.py:44-68 | a run that fails while resolving makes no server call; a posted review carries the resolved revisions, the diffs, the fields and the URL, and its server calls are the login then the update or the creation in the chosen repository |
| HgReviewboard.FindServer | hg_reviewboard.py:41-43 | aborts exactly when no server is configured (no --server option) |
| HgReviewboard.CheckParentOptions | hg_reviewboard.py:305-313 | aborts exactly when two of --parent/-g/--branch are given; no -o/-O requirement |
| HgReviewboard.RemotePathPrecedence | hg_reviewboard.py:299-303 | with no location given, the upstream is `default-push`, else `default` |
| HgReviewboard.RemotePath | hg_reviewboard.py:299-303 | the given location expanded; with none, `default-push` with `default` as fallback |
| HgReviewboard.RemoteParent | hg_reviewboard.py:289-297 | fails when the remote cannot be opened; otherwise the first parent of the first outgoing revision leading to the target |
| HgReviewboard.FindRParent | hg_reviewboard.py:56-69 | --master, else -O, else -o, else none; a found remote parent is the first parent of an outgoing ancestor |
| HgReviewboard.BranchParentIsFirstOffBranchOrRoot | hg_reviewboard.py:315-327 | the walk stops at the first revision off the branch, or at the root itself when the whole chain is on the branch; always an ancestor |
| HgReviewboard.FindBranchParent | hg_reviewboard.py:315-327 | the walk terminates at that revision |
| HgReviewboard.FindParent | hg_reviewboard.py:71-84 | -g gives the remote parent, possibly none; else --parent gives its lookup, failing only when unknown; else --branch gives the branch parent; else the first parent |
| HgReviewboard.Resolve | hg_reviewboard.py:38-52 | a settled target, remote parent and parent agree with each step; a failure is that of the first failing step, in the order server, option check, revision, remote parent |
| HgReviewboard.MissingParentCrashes | hg_reviewboard.py:50-52 | -g with no remote parent is not caught: taking the diff against None raises AttributeError |
| HgReviewboard.CreateReviewData | hg_reviewboard.py:86-98 | parent diff exactly when the remote parent is truthy (not the null revision) and differs from the parent |
| HgReviewboard.FindContexts | hg_reviewboard.py:329-336 | revisions between parent and target, without the parent, no branch filter, newest first |
| HgReviewboard.Entry | hg_reviewboard.py:239 | one listing entry: a tab, revision number, hash and quoted description |
| HgReviewboard.Fields | hg_reviewboard.py:232-287 | fails with IndexError exactly when the summary must come from an empty description |
| HgReviewboard.FieldsOfThisVersion | hg_reviewboard.py:245-285 | summary and description only with --update or without an existing request, with the offered summary and the description text; never a branch or bugs-closed field |
| HgReviewboard.TargetFieldsFromOptionsOrConfig | hg_reviewboard.py:250-256 | groups and people are sent exactly when the option, else the configured value, is non-empty, and with that value |
| HgReviewboard.CreateFields | hg_reviewboard.py:232-287 | builds the fields by filling the map step by step |
| HgReviewboard.GivenId | hg_reviewboard.py:191-194 | `int()` of a given or configured id: the number, or ValueError |
| HgReviewboard.GivenIdReadsNumbers | hg_reviewboard.py:191-194 | the decimal text of a number reads as that number; a ValueError exactly where `int()` finds no number (blanks, an optional sign, blanks, digits, blanks) |
| HgReviewboard.RepoIdChoice | hg_reviewboard.py:190-230 | the repository id `find_reviewboard_repo_id` returns (a number, or the typed string), or its error; its cases are RepoIdChoiceCases |
| HgReviewboard.RepoIdChoiceCases | hg_reviewboard.py:190-230 | `int()` of the given or configured id (ValueError when not a number); else the last matching Mercurial repository; else the prompted string if one of the listed Mercurial ids; else the only repository's id |
| HgReviewboard.FindReviewboardRepoId | hg_reviewboard.py:190-230 | the loops over the sorted listing settle on that choice; the listing is requested only when no id is given or configured |
| HgReviewboard.UpdateReview | hg_reviewboard.py:167-174 | logs in, updates, publishes under --publish; a refused login aborts with the server's message |
| HgReviewboard.NewReview | hg_reviewboard.py:176-188 | logs in; a failed repository choice is the run's error, with no request created; otherwise creates the request in the chosen repository and publishes under --publish |
| HgReviewboard.SendReview | hg_reviewboard.py:101-116 | builds the fields before any server call (IndexError leaves the server untouched); the URL uses the configured server |
| HgReviewboard.PostReview | hg_reviewboard.py:38-54 | a failure while resolving or building the fields makes no server call; a posted review carries the resolved revisions, diffs, fields and URL |
| LegacyPostreview.ParentFor | __init__.py:45-49 | `repo[--parent]`, else the first parent of the revision |
| LegacyPostreview.RemoteParentFor | __init__.py:170-182 | opening the remote fails first, then resolving the revision; otherwise the first parent of the first outgoing revision leading to it |
| LegacyPostreview.RemoteParent | __init__.py:170-182 | the loop computes that remote parent |
| LegacyPostreview.RParentFor | __init__.py:56-63 | --master, else -O, else -o, else none |
| LegacyPostreview.RemoteParentFromOutgoingAncestor | __init__.py:178-182 | a remote parent found from the outgoing list is the first parent of an outgoing ancestor of the revision |
| LegacyPostreview.Fields | __init__.py:77-100 | fails with IndexError exactly when the summary must come from an empty description |
| LegacyPostreview.FieldsOfThisVersion | __init__.py:77-92 | summary and description only with --update or without an existing request; the summary is the description's first line and the description the whole text; never a branch or bugs-closed field |
| LegacyPostreview.TargetFieldsFromOptionsOrConfig | __init__.py:94-100 | groups and people are sent exactly when the options joined with commas, else the configured value, are non-empty, and with that value |
| LegacyPostreview.TargetPeopleRoundTrip | __init__.py:94-100 | a comma-free list of people given as options is recovered by splitting the field at commas |
| LegacyPostreview.Prepare | __init__.py:33-100 | the server check, parent, remote parent, revision and fields settle in the source's order; each agrees with its step |
| LegacyPostreview.ParentErrorsFirst | __init__.py:45-63 | an unknown --parent is reported before any remote-parent failure |
| LegacyPostreview.Settle | __init__.py:33-100 | the step-by-step procedure computes that preparation |
| LegacyPostreview.RepositoryChoice | __init__.py:129-151 | a typed id is taken only with several repositories listed and only when it is one of their ids (of any tool); a number is the given --repoid or the only repository's id |
| LegacyPostreview.ChooseRepository | __init__.py:129-151 | settles on that choice, listing only without --repoid; a bad --repoid is a ValueError, an empty listing aborts naming the server, a typed id outside the listing aborts |
| LegacyPostreview.Submit | __init__.py:118-158 | logs in first; updates without publishing, or chooses the repository (a failed choice is the run's error, with no request created), creates the request in it and publishes under --publish |
| LegacyPostreview.PostReview | __init__.py:12-163 | a failure before login makes no server call; a posted review carries the prepared revisions and fields, the diffs and the URL |
| LegacyPostreview.NoRepositoriesMessage | __init__.py:137-138 | the message ends with the server's address |
| History.Lookup | mercurial_reviewboard/__init__.py:51 | a known specifier resolves to a revision; an unknown one fails naming it |
| History.Between | mercurial_reviewboard/__init__.py:410 | `nodesbetween([p], [c])[0]`: exactly the revisions from p to c that descend from p and lead to c, in ascending order |
| History.FirstParent | mercurial_reviewboard/__init__.py:99 | `parents()[0]`: a revision of the log (or null), older than the revision it is the parent of |
| History.BetweenNonEmptyIffAncestor | mercurial_reviewboard/__init__.py:338-339 | `nodesbetween([o], [c])` is non-empty exactly when o is c or one of its ancestors |
| History.RemoteParentIsFirstOutgoingAncestor | mercurial_reviewboard/__init__.py:336-340 | none exactly when no outgoing revision leads to the target; otherwise the first parent of the first that does |
| History.RemoteParentAt | mercurial_reviewboard/__init__.py:322-334 | a remote with no outgoing list cannot be opened |
| History.FirstOutgoingParent | mercurial_reviewboard/__init__.py:336-340 | the loop with early return computes the remote parent |
| History.ChainAncestors | mercurial_reviewboard/__init__.py:391-395 | every revision the first-parent walk visits is an ancestor of the start |
| History.WalkBackStopsOffBranch | mercurial_reviewboard/__init__.py:394-395 | the walk stops at the first revision off the branch, or at the root of the chain |
| History.Collected | mercurial_reviewboard/__init__.py:407-419 | exactly the revisions strictly after the parent on an ancestry path to the target (branch-filtered on request), strictly decreasing |
| History.NullIsAncestor | mercurial_reviewboard/__init__.py:402 | the null revision is an ancestor of every revision |
| HgUi.ExpandPath | mercurial_reviewboard/__init__.py:363-368 | a location is returned as is; otherwise its `[paths]` entry, else the default's entry, else the name itself |
| ReviewBoard.SortByName | mercurial_reviewboard/__init__.py:229-230 | sorted by lower-cased name and a permutation of the listing |
| ReviewBoard.RequestUrl | mercurial_reviewboard/__init__.py:128-131 | `<server>/r/<id>/`, with `http://` put in front exactly when the server does not start with `http` |
| ReviewBoard.Creation | mercurial_reviewboard/__init__.py:204-206 | a request is created, in the chosen repository, exactly when the repository choice succeeded |
| Command.FlagCount | mercurial_reviewboard/__init__.py:372-376 | counts the parent-choosing flags given |
| Command.ConflictingIffExactlyTwo | mercurial_reviewboard/__init__.py:376 | the xor test rejects exactly two flags, not three |
| Command.Entries | hg_reviewboard.py:238-240 | `''.join` of the contexts' entries: nothing for no contexts |
| Command.Listing | hg_reviewboard.py:237-243 | `changesets:` then the entries; under --branch the same text after the branch header |
| Command.EntriesAppend | hg_reviewboard.py:238-240 | entries appear in the order of the contexts |
| Command.EntriesPair | hg_reviewboard.py:238-240 | two contexts list as the first's entry, then the second's |
| Command.AddTargetsAt | mercurial_reviewboard/__init__.py:311-317 | a field is set after the loop exactly when it was set before or has a non-empty value, which it then holds |
| Command.FillTargets | mercurial_reviewboard/__init__.py:311-317 | the loop fills the target fields |
| Command.LastMatch | mercurial_reviewboard/__init__.py:233-239 | none exactly when no Mercurial repository's lower-cased path matches; otherwise the id of the last that does |
| Command.MatchRepository | mercurial_reviewboard/__init__.py:233-239 | the loop overwriting `repo_id` computes that match |
| Command.ListedIdsOrderFree | mercurial_reviewboard/__init__.py:242-247 | the set of listed ids does not depend on the order of the listing |
| Command.CollectIds | mercurial_reviewboard/__init__.py:242-247 | the loop collects `str(id)` of the listed repositories |
| Text.FirstLine | mercurial_reviewboard/__init__.py:282 | none exactly for the empty text; otherwise the longest break-free prefix |
| Text.Strip | mercurial_reviewboard/__init__.py:287 | the text with a blank prefix and a blank suffix removed; empty exactly for all-blank text, otherwise starting and ending with a non-blank |
| Text.DecimalRoundTrip | hg_reviewboard.py:191-194 | `int(str(n)) == n` |
| Text.DigitsOnly | hg_reviewboard.py:191-194 | a run of digits reads as its decimal value |
| Text.BlankAfterSign | __init__.py:130 | blanks between the sign and the digits are skipped, so `int('- 5') == -5` and `int('+ 5') == 5` |
| Text.SplitJoin | __init__.py:96 | splitting a comma-free list joined with commas gives the list back |
| Variants.ParentOptionChecks | mercurial_reviewboard/__init__.py:371-384 | the newest check rejects what 3.1.0 rejects, plus -g without -o/-O; all three flags pass the combination test in both |
| Variants.BranchParents | hg_reviewboard.py:315-327 | the two branch walks agree unless the whole chain is on the branch; then the newest gives the null revision and 3.1.0 the root |
| Variants.ParentDiffConditions | hg_reviewboard.py:92 | the newest and older parent-diff tests disagree exactly when the remote parent is the null revision and the parent is not |
| Variants.ParentDiffs | mercurial_reviewboard/__init__.py:109 | away from that case both versions produce the same diffs |
| Variants.LegacyParentIsDefault | __init__.py:45-49 | without --parent the oldest version's diff base is 3.1.0's default base |
| Variants.TwoRevsContexts | tests/test_ui.py:17-20 | for the two-revision repository with parent 000000 the contexts are revisions 1 then 0 |
| Variants.TwoRevsEntries | tests/test_ui.py:10-11 | the 3.1.0 entries of revisions 1 and 0 are the lines its test expects |
| Variants.TwoRevsListing | tests/test_ui.py:10-11 | the 3.1.0 listing for that repository is `changesets:` followed by the entry of revision 1, then that of revision 0 |
| Variants.RepoIdFromText | tests/test_find_reviewboard_repo_id.py:6-9 | the id `'101'` reads as 101 |

## Left out

- **Server calls.** The HTTP client is not modelled: `make_rbclient`/`ReviewBoard`, proxies,
  credentials, the username/password prompts of the oldest version, and `apiver`. Each call is
  only an opaque reply or refusal.
- **Diffs.** `patch.diff` is an opaque function of two revisions.
- **`findoutgoing`.** It sniffs the Mercurial version with a floating-point parse. `hg.peer`
  and `hg.repository` are not modelled either. The outgoing list of each remote location is an
  input, and a location without one cannot be opened.
- **`ui.expandpath`.** Its filesystem test is abstracted as a set of names that are locations.
- **I/O.** Not modelled: `ui.status`/`ui.debug` output, `launch_webbrowser`, `readline`, and
  the prompt's default of 0. The typed lines and the prompt answer are parameters.
- **Caching and `bulkpost`.** Credential caching and the `bulkpost` option belong to code that
  is not part of this model.
- **`Text.Lower`.** Only ASCII letters are lowered.
- **`ReviewBoard.SortByName`.** It states sortedness and permutation, but not the stability of
  Python's sort. Repositories whose names differ only in case keep an unspecified relative order.
- **`HgReviewboard.Resolve`.** The AttributeError from a missing parent is reported at the point
  of the diff. Nothing in between has observable effects.
- **"No repositories" message.** In the newest and 3.1.0 versions, `find_reviewboard_repo_id`
  formats it with a name that function does not define. The model follows the code: the run
  ends with NameError (`Uncaught("NameError")`), not with an abort. The oldest version defines
  the name and aborts with the message.
- **Order of `find_contexts`.** The model follows the code: the result is the reverse of the
  `nodesbetween` order, i.e. newest first.
