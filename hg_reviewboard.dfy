/** `hg postreview` as in hg_reviewboard.py (version 3.1.0): the same steps as the newer
    extension, with an older parent-option check, branch walk, listing format and repository-id
    handling, and without the abort for a missing parent. */
module HgReviewboard {
  import opened Base
  import opened Text
  import opened History
  import opened HgUi
  import opened ReviewBoard
  import opened Command

  /** The options of this version that the core reads; no --summary, --server or --bugs_closed. */
  datatype Options = Options(
    outgoing: bool,
    outgoingrepo: string,
    repoid: string,
    master: string,
    existing: string,
    update: bool,
    publish: bool,
    parent: string,
    outgoingchanges: bool,
    branch: bool,
    interactive: bool,
    targetPeople: string,
    targetGroups: string)

  /** The lines typed under --interactive: summary, description, "append changesets" answer. */
  datatype Typed = Typed(summary: string, description: string, choice: string)

  const ServerMessage: string := "please specify a reviewboard server in your .hgrc file"

  /** The configured server; this version has no --server option. */
  function FindServer(ui: Ui): (r: Result<string>)
    ensures r.Ok? <==> Config(ui, "server") != ""
    ensures r.Ok? ==> r.value == Config(ui, "server")
    ensures r.Err? ==> r.failure == Abort(ServerMessage)
  {
    if Config(ui, "server") == "" then Err(Abort(ServerMessage)) else Ok(Config(ui, "server"))
  }

  /** Only the combination test: -g needs no -o or -O here. */
  function CheckParentOptions(opts: Options): (r: Result<()>)
    ensures r.Err? <==> FlagCount(opts.parent != "", opts.outgoingchanges, opts.branch) == 2
    ensures r.Err? ==> r.failure == Abort(CombineMessage)
  {
    ConflictingIffExactlyTwo(opts.parent != "", opts.outgoingchanges, opts.branch);
    if Conflicting(opts.parent != "", opts.outgoingchanges, opts.branch) then Err(Abort(CombineMessage)) else Ok(())
  }

  /** The given location expanded, else `default-push`, falling back to `default`. */
  function RemotePath(ui: Ui, upstream: string): string {
    if upstream != "" then ExpandPath(ui, upstream, None) else ExpandPath(ui, "default-push", Some("default"))
  }

  /** With `[paths]` entries naming locations, the upstream path is `default-push`, else
      `default`. */
  lemma RemotePathPrecedence(ui: Ui)
    requires "default-push" !in ui.locations
    ensures PathEntry(ui, "default-push") != "" ==> RemotePath(ui, "") == PathEntry(ui, "default-push")
    ensures PathEntry(ui, "default-push") == "" && PathEntry(ui, "default") != "" ==> RemotePath(ui, "") == PathEntry(ui, "default")
    ensures PathEntry(ui, "default-push") == "" && PathEntry(ui, "default") == "" ==> RemotePath(ui, "") == "default-push"
  {
  }

  /** `remoteparent`: open the remote and take the first parent of the first outgoing revision
      that leads to c. */
  method RemoteParent(ui: Ui, repo: Repo, c: int, upstream: string) returns (r: Result<Option<int>>)
    ensures r == RemoteParentAt(repo, RemotePath(ui, upstream), c)
  {
    var remotepath := RemotePath(ui, upstream);
    if remotepath !in repo.outgoing {
      return Err(RemoteNotFound(remotepath));
    }
    var p := FirstOutgoingParent(repo.log, repo.outgoing[remotepath], c);
    return Ok(p);
  }

  /** --master, else -O, else -o, else none. */
  function FindRParent(ui: Ui, repo: Repo, c: int, opts: Options): (r: Result<Option<int>>)
    ensures opts.master == "" && opts.outgoingrepo == "" && !opts.outgoing ==> r == Ok(None)
    ensures opts.master != "" ==> r.Ok? == (opts.master in repo.names) && (r.Ok? ==> r.value == Some(repo.names[opts.master]))
    ensures r.Ok? && r.value.Some? && opts.master == "" ==>
              var path := RemotePath(ui, if opts.outgoingrepo != "" then opts.outgoingrepo else "");
              path in repo.outgoing &&
              exists j :: 0 <= j < |repo.outgoing[path]| && IsAncestor(repo.log, repo.outgoing[path][j], c)
                          && r.value.value == FirstParent(repo.log, repo.outgoing[path][j])
  {
    if opts.master != "" then
      var m :- Lookup(repo, opts.master);
      Ok(Some(m))
    else if opts.outgoingrepo != "" then
      var path := RemotePath(ui, opts.outgoingrepo);
      if path in repo.outgoing then RemoteParentIsFirstOutgoingAncestor(repo.log, repo.outgoing[path], c); RemoteParentAt(repo, path, c)
      else RemoteParentAt(repo, path, c)
    else if opts.outgoing then
      var path := RemotePath(ui, "");
      if path in repo.outgoing then RemoteParentIsFirstOutgoingAncestor(repo.log, repo.outgoing[path], c); RemoteParentAt(repo, path, c)
      else RemoteParentAt(repo, path, c)
    else Ok(None)
  }

  /** Where this version's branch walk stops: the first revision off c's branch down its
      first-parent chain, or the root itself when the whole chain is on the branch. */
  function BranchParent(log: Log, c: int): int {
    WalkBack(log, c, Branch(log, c))
  }

  lemma BranchParentIsFirstOffBranchOrRoot(log: Log, c: int)
    requires c in log
    ensures var r := BranchParent(log, c); var ch := Chain(log, c);
            var k := FirstOffBranch(log, ch, Branch(log, c));
            && (k < |ch| ==> r == ch[k] && Branch(log, r) != Branch(log, c))
            && (k == |ch| ==> r == ch[|ch| - 1] && FirstParent(log, r) == Null)
            && r in log && IsAncestor(log, r, c)
  {
    WalkBackStopsOffBranch(log, c, Branch(log, c));
    ChainAncestors(log, c);
  }

  /** `find_branch_parent`: step to the first parent while there is one and the branch is unchanged. */
  method FindBranchParent(log: Log, c: int) returns (r: int)
    ensures r == BranchParent(log, c)
  {
    var branchname := Branch(log, c);
    var currctx := c;
    while Truthy(FirstParent(log, currctx)) && Branch(log, currctx) == branchname
      invariant WalkBack(log, currctx, branchname) == WalkBack(log, c, branchname)
      decreases if currctx in log then currctx + 1 else 0
    {
      currctx := FirstParent(log, currctx);
    }
    return currctx;
  }

  /** -g takes the remote parent (possibly none); else --parent; else --branch; else c's first parent. */
  function FindParent(repo: Repo, c: int, rparent: Option<int>, opts: Options): (r: Result<Option<int>>)
    ensures r == Ok(None) <==> opts.outgoingchanges && rparent.None?
    ensures r.Err? ==> !opts.outgoingchanges && opts.parent != "" && r.failure == UnknownRevision(opts.parent)
    ensures opts.outgoingchanges ==> r == Ok(rparent)
    ensures !opts.outgoingchanges && opts.parent != "" && r.Ok? ==> Lookup(repo, opts.parent) == Ok(r.value.value)
    ensures !opts.outgoingchanges && opts.parent == "" && opts.branch ==> r == Ok(Some(BranchParent(repo.log, c)))
    ensures !opts.outgoingchanges && opts.parent == "" && !opts.branch ==> r == Ok(Some(FirstParent(repo.log, c)))
  {
    if opts.outgoingchanges then Ok(rparent)
    else if opts.parent != "" then
      var p :- Lookup(repo, opts.parent);
      Ok(Some(p))
    else if opts.branch then Ok(Some(BranchParent(repo.log, c)))
    else Ok(Some(FirstParent(repo.log, c)))
  }

  datatype Resolution = Resolution(target: int, rparent: Option<int>, parent: int)

  /** The steps of `postreview` up to the diff. There is no check for a missing parent: taking
      the diff against None fails with AttributeError. */
  function Resolve(ui: Ui, repo: Repo, rev: string, opts: Options): (r: Result<Resolution>)
    ensures r.Ok? ==> && FindServer(ui).Ok?
                      && CheckParentOptions(opts).Ok?
                      && Lookup(repo, rev) == Ok(r.value.target)
                      && FindRParent(ui, repo, r.value.target, opts) == Ok(r.value.rparent)
                      && FindParent(repo, r.value.target, r.value.rparent, opts) == Ok(Some(r.value.parent))
    ensures FindServer(ui).Err? ==> r == Err(FindServer(ui).failure)
    ensures FindServer(ui).Ok? && CheckParentOptions(opts).Err? ==> r == Err(CheckParentOptions(opts).failure)
    ensures FindServer(ui).Ok? && CheckParentOptions(opts).Ok? && Lookup(repo, rev).Err? ==>
              r == Err(Lookup(repo, rev).failure)
    ensures FindServer(ui).Ok? && CheckParentOptions(opts).Ok? && Lookup(repo, rev).Ok?
              && FindRParent(ui, repo, Lookup(repo, rev).value, opts).Err? ==>
              r == Err(FindRParent(ui, repo, Lookup(repo, rev).value, opts).failure)
  {
    var _ :- FindServer(ui);
    var _ :- CheckParentOptions(opts);
    var c :- Lookup(repo, rev);
    var rparent :- FindRParent(ui, repo, c, opts);
    var parent :- FindParent(repo, c, rparent, opts);
    if parent.None? then Err(Uncaught("AttributeError"))
    else Ok(Resolution(c, rparent, parent.value))
  }

  /** -g with no outgoing revision leading to the target crashes instead of aborting with a
      message. */
  lemma MissingParentCrashes(ui: Ui, repo: Repo, rev: string, opts: Options)
    requires FindServer(ui).Ok? && CheckParentOptions(opts).Ok? && Lookup(repo, rev).Ok?
    requires opts.outgoingchanges && FindRParent(ui, repo, Lookup(repo, rev).value, opts) == Ok(None)
    ensures Resolve(ui, repo, rev, opts) == Err(Uncaught("AttributeError"))
  {
  }

  /** `rparent and parent != rparent`: a remote parent that is the null revision is falsy. */
  predicate NeedsParentDiff(rparent: Option<int>, parent: int) {
    rparent.Some? && Truthy(rparent.value) && parent != rparent.value
  }

  function CreateReviewData(diff: (int, int) -> string, c: int, parent: int, rparent: Option<int>): (r: (string, string))
    ensures r.0 == diff(parent, c)
    ensures rparent.None? || rparent == Some(Null) || rparent == Some(parent) ==> r.1 == ""
    ensures NeedsParentDiff(rparent, parent) ==> r.1 == diff(rparent.value, parent)
  {
    (diff(parent, c), if NeedsParentDiff(rparent, parent) then diff(rparent.value, parent) else "")
  }

  /** `find_contexts`: the revisions of `nodesbetween([parent], [c])` other than the parent, reversed. */
  method FindContexts(log: Log, parentctx: int, ctx: int) returns (contexts: seq<int>)
    ensures contexts == Collected(log, parentctx, ctx, false)
  {
    var nodes := Between(log, parentctx, ctx);
    contexts := [];
    for i := 0 to |nodes|
      invariant Increasing(nodes[..i])
      invariant contexts == Keep(log, nodes[..i], parentctx, ctx, false)
    {
      KeepStep(log, nodes, i, parentctx, ctx, false);
      if nodes[i] != parentctx {
        contexts := contexts + [nodes[i]];
      }
    }
    assert nodes[..|nodes|] == nodes;
    contexts := Reverse(contexts);
  }

  /** `'\t%s:%s "%s"\n' % (ctx.rev(), ctx, ctx.description())`. */
  function Entry(log: Log, x: int): string {
    "\t" + DecimalString(x) + ":" + Hash(log, x) + " \"" + History.Description(log, x) + "\"\n"
  }

  function EntryOf(log: Log): int -> string {
    x => Entry(log, x)
  }

  function ChangesetsText(log: Log, parent: int, c: int, branch: bool): string {
    Listing(if branch then Some(Branch(log, c)) else None, Entries(Collected(log, parent, c, false), EntryOf(log)))
  }

  predicate Rewrites(opts: Options) {
    opts.update || opts.existing == ""
  }

  function SummaryField(default: string, opts: Options, typed: Typed): string {
    if opts.interactive && Strip(typed.summary) != "" then Strip(typed.summary) else default
  }

  function DescriptionField(changesets: string, opts: Options, typed: Typed): string {
    if !opts.interactive then changesets
    else
      var description := Strip(typed.description);
      if Strip(typed.choice) == "n" then description
      else (if description != "" then description + "\n\n" else description) + changesets
  }

  const TargetKeys: seq<Field> := [TargetGroups, TargetPeople]

  function TargetValue(ui: Ui, given: string, key: Field): string {
    if given != "" then given else Config(ui, key.Name())
  }

  function TargetValues(ui: Ui, opts: Options): map<Field, string> {
    map[TargetGroups := TargetValue(ui, opts.targetGroups, TargetGroups),
        TargetPeople := TargetValue(ui, opts.targetPeople, TargetPeople)]
  }

  function Rewritten(log: Log, c: int, opts: Options, typed: Typed, changesets: string): map<Field, string>
    requires Rewrites(opts) ==> History.Description(log, c) != ""
  {
    if Rewrites(opts) then
      map[Summary := SummaryField(FirstLine(History.Description(log, c)).value, opts, typed),
          Field.Description := DescriptionField(changesets, opts, typed)]
    else map[]
  }

  /** The fields of this version: no --summary override and no branch field; IndexError when the
      summary is the first line of an empty description. */
  function Fields(ui: Ui, log: Log, c: int, opts: Options, typed: Typed, changesets: string): (r: Result<map<Field, string>>)
    ensures r.Err? <==> Rewrites(opts) && History.Description(log, c) == ""
    ensures r.Err? ==> r.failure == Uncaught("IndexError")
  {
    if Rewrites(opts) && History.Description(log, c) == "" then Err(Uncaught("IndexError"))
    else Ok(AddTargets(Rewritten(log, c, opts, typed, changesets), TargetKeys, TargetValues(ui, opts)))
  }

  /** Summary and description are sent exactly when --update is given or no request exists yet,
      with the offered summary and the description; the branch and bugs_closed fields never are. */
  lemma FieldsOfThisVersion(ui: Ui, log: Log, c: int, opts: Options, typed: Typed, changesets: string)
    requires Fields(ui, log, c, opts, typed, changesets).Ok?
    ensures var f := Fields(ui, log, c, opts, typed, changesets).value;
            && (Summary in f <==> Rewrites(opts))
            && (Field.Description in f <==> Rewrites(opts))
            && (Rewrites(opts) ==>
                  && f[Summary] == SummaryField(FirstLine(History.Description(log, c)).value, opts, typed)
                  && f[Field.Description] == DescriptionField(changesets, opts, typed))
            && BranchName !in f && BugsClosed !in f
  {
    var base := Rewritten(log, c, opts, typed, changesets);
    var values := TargetValues(ui, opts);
    AddTargetsAt(base, TargetKeys, values, Summary);
    AddTargetsAt(base, TargetKeys, values, Field.Description);
    AddTargetsAt(base, TargetKeys, values, BranchName);
    AddTargetsAt(base, TargetKeys, values, BugsClosed);
  }

  /** target_groups and target_people are sent exactly when the option, else the configured
      value, is non-empty, and with that value. */
  lemma TargetFieldsFromOptionsOrConfig(ui: Ui, log: Log, c: int, opts: Options, typed: Typed, changesets: string)
    requires Fields(ui, log, c, opts, typed, changesets).Ok?
    ensures var f := Fields(ui, log, c, opts, typed, changesets).value;
            && (TargetGroups in f <==> TargetValue(ui, opts.targetGroups, TargetGroups) != "")
            && (TargetGroups in f ==> f[TargetGroups] == TargetValue(ui, opts.targetGroups, TargetGroups))
            && (TargetPeople in f <==> TargetValue(ui, opts.targetPeople, TargetPeople) != "")
            && (TargetPeople in f ==> f[TargetPeople] == TargetValue(ui, opts.targetPeople, TargetPeople))
  {
    var base := Rewritten(log, c, opts, typed, changesets);
    var values := TargetValues(ui, opts);
    AddTargetsAt(base, TargetKeys, values, TargetGroups);
    AddTargetsAt(base, TargetKeys, values, TargetPeople);
  }

  /** `createfields`. */
  method CreateFields(ui: Ui, log: Log, c: int, parentc: int, opts: Options, typed: Typed) returns (r: Result<map<Field, string>>)
    ensures r == Fields(ui, log, c, opts, typed, ChangesetsText(log, parentc, c, opts.branch))
  {
    var allContexts := FindContexts(log, parentc, c);
    var changesets := Listing(if opts.branch then Some(Branch(log, c)) else None, Entries(allContexts, EntryOf(log)));
    var fields: map<Field, string> := map[];
    if Rewrites(opts) {
      var lines := FirstLine(History.Description(log, c));
      if lines.None? {
        return Err(Uncaught("IndexError"));
      }
      fields := fields[Summary := SummaryField(lines.value, opts, typed)];
      fields := fields[Field.Description := DescriptionField(changesets, opts, typed)];
    }
    fields := FillTargets(fields, TargetKeys, TargetValues(ui, opts));
    return Ok(fields);
  }

  /** `int(given)`: a `ValueError` when the id given or configured is not a number. */
  function GivenId(given: string): Result<RepoId> {
    match ParseInt(given)
    case Some(n) => Ok(NumericId(n))
    case None => Err(Uncaught("ValueError"))
  }

  /** An id given as the decimal text of a number is that number; text that is not a decimal
      literal is a ValueError. */
  lemma GivenIdReadsNumbers(n: int, given: string)
    ensures GivenId(DecimalString(n)) == Ok(NumericId(n))
    ensures ParseInt(given).None? <==> GivenId(given) == Err(Uncaught("ValueError"))
  {
    DecimalRoundTrip(n);
  }

  /** What `find_reviewboard_repo_id` settles on, given the server's reply to the listing
      request and the answer typed at the prompt. */
  function RepoIdChoice(ui: Ui, listing: Reply<seq<Repository>>, opts: Options, answer: string): Result<RepoId> {
    if opts.repoid != "" then GivenId(opts.repoid)
    else if Config(ui, "repoid") != "" then GivenId(Config(ui, "repoid"))
    else match listing
      case Refusal(message) => Err(Abort(message))
      case Answer(rs) =>
        if rs == [] then Err(Uncaught("NameError"))  // the message names a variable the function does not define
        else
          var sorted := SortByName(rs);
          match LastMatch(sorted, Lower(RemotePath(ui, opts.outgoingrepo)))
          case Some(id) => Ok(NumericId(id))
          case None =>
            if |sorted| > 1 then (if answer in ListedIds(sorted, true) then Ok(StringId(answer)) else Err(Abort(InvalidIdMessage(answer))))
            else Ok(NumericId(sorted[0].id))
  }

  /** `int()` of a given or configured id; else the last Mercurial repository whose path is the
      remote location; else, with several repositories, the typed string when it is one of the
      listed Mercurial ids; else the only repository's id. */
  lemma RepoIdChoiceCases(ui: Ui, listing: Reply<seq<Repository>>, opts: Options, answer: string)
    ensures var r := RepoIdChoice(ui, listing, opts, answer);
            && (opts.repoid != "" ==>
                  r == (match ParseInt(opts.repoid) case Some(n) => Ok(NumericId(n)) case None => Err(Uncaught("ValueError"))))
            && (opts.repoid == "" && Config(ui, "repoid") != "" ==>
                  r == (match ParseInt(Config(ui, "repoid")) case Some(n) => Ok(NumericId(n)) case None => Err(Uncaught("ValueError"))))
            && (opts.repoid == "" && Config(ui, "repoid") == "" && listing.Refusal? ==> r == Err(Abort(listing.message)))
            && (opts.repoid == "" && Config(ui, "repoid") == "" && listing == Answer([]) ==> r == Err(Uncaught("NameError")))
            && (opts.repoid == "" && Config(ui, "repoid") == "" && listing.Answer? && listing.value != [] ==>
                  var rs := listing.value;
                  match LastMatch(SortByName(rs), Lower(RemotePath(ui, opts.outgoingrepo)))
                  case Some(id) => r == Ok(NumericId(id))
                  case None =>
                    if |rs| > 1 then
                      r == (if answer in ListedIds(rs, true) then Ok(StringId(answer)) else Err(Abort(InvalidIdMessage(answer))))
                    else r == Ok(NumericId(rs[0].id)))
  {
    if opts.repoid == "" && Config(ui, "repoid") == "" && listing.Answer? && listing.value != [] {
      var rs := listing.value;
      var sorted := SortByName(rs);
      ListedIdsOrderFree(sorted, rs, true);
      assert sorted[0] in multiset(rs);
    }
  }

  /** The listing request `find_reviewboard_repo_id` makes when no id is given or configured. */
  function Listed(ui: Ui, opts: Options): seq<Event> {
    if opts.repoid == "" && Config(ui, "repoid") == "" then [ListRepositories] else []
  }

  /** `find_reviewboard_repo_id`: the loops over the sorted listing. */
  method FindReviewboardRepoId(ui: Ui, client: Client, opts: Options, answer: string) returns (r: Result<RepoId>, calls: seq<Event>)
    ensures r == RepoIdChoice(ui, client.repositories, opts, answer)
    ensures calls == Listed(ui, opts)
  {
    calls := [];
    if opts.repoid != "" || Config(ui, "repoid") != "" {
      var given := if opts.repoid != "" then opts.repoid else Config(ui, "repoid");
      var n := ParseInt(given);
      if n.None? {
        return Err(Uncaught("ValueError")), calls;
      }
      return Ok(NumericId(n.value)), calls;
    }
    calls := [ListRepositories];
    if client.repositories.Refusal? {
      return Err(Abort(client.repositories.message)), calls;
    }
    var repositories := client.repositories.value;
    if repositories == [] {
      return Err(Uncaught("NameError")), calls;
    }
    var sorted := SortByName(repositories);
    var repoId := MatchRepository(sorted, Lower(RemotePath(ui, opts.outgoingrepo)));
    if repoId.Some? {
      return Ok(NumericId(repoId.value)), calls;
    }
    var repoIds := CollectIds(sorted, true);
    if |sorted| > 1 {
      if answer !in repoIds {
        return Err(Abort(InvalidIdMessage(answer))), calls;
      }
      return Ok(StringId(answer)), calls;
    }
    return Ok(NumericId(sorted[0].id)), calls;
  }

  /** The server calls of a successful update or creation of request `requestId`: each of them
      logs in first, and a creation is in the repository `find_reviewboard_repo_id` chooses. */
  function SubmitCalls(ui: Ui, client: Client, opts: Options, answer: string, requestId: string): seq<Event> {
    (if opts.existing != "" then [Login, UpdateRequest(opts.existing)]
     else [Login] + Listed(ui, opts) + Creation(RepoIdChoice(ui, client.repositories, opts, answer)))
    + (if opts.publish then [Publish(requestId)] else [])
  }

  /** `update_review`: log in, update, publish under --publish. */
  method UpdateReview(requestId: string, client: Client, opts: Options) returns (r: Result<()>, calls: seq<Event>)
    ensures r.Ok? <==> client.login.Answer? && client.updateRequest.Answer? && (!opts.publish || client.publish.Answer?)
    ensures client.login.Refusal? ==> r == Err(Abort(client.login.message)) && calls == [Login]
    ensures r.Ok? ==> calls == [Login, UpdateRequest(requestId)] + (if opts.publish then [Publish(requestId)] else [])
  {
    calls := [Login];
    if client.login.Refusal? {
      return Err(Abort(client.login.message)), calls;
    }
    calls := calls + [UpdateRequest(requestId)];
    if client.updateRequest.Refusal? {
      return Err(Abort(client.updateRequest.message)), calls;
    }
    if opts.publish {
      calls := calls + [Publish(requestId)];
      if client.publish.Refusal? {
        return Err(Abort(client.publish.message)), calls;
      }
    }
    return Ok(()), calls;
  }

  /** `new_review`: log in, choose the repository, create the request in it, publish under
      --publish. A failed choice stops before the creation. */
  method NewReview(ui: Ui, client: Client, opts: Options, answer: string) returns (r: Result<string>, calls: seq<Event>)
    ensures client.login.Refusal? ==> r == Err(Abort(client.login.message)) && calls == [Login]
    ensures client.login.Answer? && RepoIdChoice(ui, client.repositories, opts, answer).Err? ==>
              r == Err(RepoIdChoice(ui, client.repositories, opts, answer).failure) && calls == [Login] + Listed(ui, opts)
    ensures r.Ok? ==> client.newRequest.Answer? && r.value == DecimalString(client.newRequest.value)
    ensures r.Ok? ==>
              && RepoIdChoice(ui, client.repositories, opts, answer).Ok?
              && calls == [Login] + Listed(ui, opts) + [NewRequest(RepoIdChoice(ui, client.repositories, opts, answer).value)]
                          + (if opts.publish then [Publish(r.value)] else [])
  {
    calls := [Login];
    if client.login.Refusal? {
      return Err(Abort(client.login.message)), calls;
    }
    var repoId, listed := FindReviewboardRepoId(ui, client, opts, answer);
    calls := calls + listed;
    if repoId.Err? {
      return Err(repoId.failure), calls;
    }
    calls := calls + [NewRequest(repoId.value)];
    if client.newRequest.Refusal? {
      return Err(Abort(client.newRequest.message)), calls;
    }
    var requestId := DecimalString(client.newRequest.value);
    if opts.publish {
      calls := calls + [Publish(requestId)];
      if client.publish.Refusal? {
        return Err(Abort(client.publish.message)), calls;
      }
    }
    return Ok(requestId), calls;
  }

  /** `send_review`: build the fields first (before any server call), then update or create, and
      report the URL on the configured server. */
  method SendReview(ui: Ui, log: Log, c: int, parent: int, rparent: Option<int>, d: string, parentdiff: string,
                    opts: Options, server: string, client: Client, typed: Typed, answer: string)
    returns (r: Result<Review>, calls: seq<Event>)
    ensures Rewrites(opts) && History.Description(log, c) == "" ==> r == Err(Uncaught("IndexError")) && calls == []
    ensures r.Ok? ==>
              && r.value == Review(c, parent, rparent, d, parentdiff, r.value.fields, r.value.requestId, r.value.url)
              && Fields(ui, log, c, opts, typed, ChangesetsText(log, parent, c, opts.branch)) == Ok(r.value.fields)
              && r.value.url == RequestUrl(server, r.value.requestId)
              && calls == SubmitCalls(ui, client, opts, answer, r.value.requestId)
    ensures r.Ok? && opts.existing != "" ==> r.value.requestId == opts.existing
    ensures r.Ok? && opts.existing == "" ==> client.newRequest.Answer? && r.value.requestId == DecimalString(client.newRequest.value)
  {
    calls := [];
    var fields := CreateFields(ui, log, c, parent, opts, typed);
    if fields.Err? {
      return Err(fields.failure), calls;
    }
    var requestId: string;
    if opts.existing != "" {
      requestId := opts.existing;
      var updated;
      updated, calls := UpdateReview(requestId, client, opts);
      if updated.Err? {
        return Err(updated.failure), calls;
      }
    } else {
      var created;
      created, calls := NewReview(ui, client, opts, answer);
      if created.Err? {
        return Err(created.failure), calls;
      }
      requestId := created.value;
    }
    var url := RequestUrl(server, requestId);
    return Ok(Review(c, parent, rparent, d, parentdiff, fields.value, requestId, url)), calls;
  }

  /** One run of `hg postreview` in this version. */
  method PostReview(ui: Ui, repo: Repo, rev: string, opts: Options, client: Client,
                    diff: (int, int) -> string, typed: Typed, answer: string)
    returns (r: Result<Review>, calls: seq<Event>)
    ensures Resolve(ui, repo, rev, opts).Err? ==> r == Err(Resolve(ui, repo, rev, opts).failure) && calls == []
    ensures Resolve(ui, repo, rev, opts).Ok? && Rewrites(opts) && History.Description(repo.log, Resolve(ui, repo, rev, opts).value.target) == "" ==>
              r == Err(Uncaught("IndexError")) && calls == []
    ensures r.Ok? ==>
              var res := Resolve(ui, repo, rev, opts).value;
              && r.value.target == res.target
              && r.value.parent == res.parent
              && r.value.rparent == res.rparent
              && (r.value.diff, r.value.parentDiff) == CreateReviewData(diff, res.target, res.parent, res.rparent)
              && Fields(ui, repo.log, res.target, opts, typed, ChangesetsText(repo.log, res.parent, res.target, opts.branch)) == Ok(r.value.fields)
              && r.value.url == RequestUrl(Config(ui, "server"), r.value.requestId)
              && calls == SubmitCalls(ui, client, opts, answer, r.value.requestId)
  {
    var resolved := Resolve(ui, repo, rev, opts);
    if resolved.Err? {
      return Err(resolved.failure), [];
    }
    var c, rparent, parent := resolved.value.target, resolved.value.rparent, resolved.value.parent;
    var (d, parentdiff) := CreateReviewData(diff, c, parent, rparent);
    r, calls := SendReview(ui, repo.log, c, parent, rparent, d, parentdiff, opts, Config(ui, "server"), client, typed, answer);
  }
}
