/** `hg postreview` as in mercurial_reviewboard/__init__.py (version 4.1.0): how the revision
    under review, its diff base (parent) and the base of the parent diff (remote parent) are
    chosen, which fields are sent, and how the request is created or updated. */
module Postreview {
  import opened Base
  import opened Text
  import opened History
  import opened HgUi
  import opened ReviewBoard
  import opened Command

  /** The options of the command that the core reads; a string option not given is "", a flag
      not given is false. */
  datatype Options = Options(
    outgoing: bool,
    outgoingrepo: string,
    repoid: string,
    summary: string,
    master: string,
    server: string,
    existing: string,
    update: bool,
    publish: bool,
    parent: string,
    outgoingchanges: bool,
    branch: bool,
    interactive: bool,
    targetPeople: string,
    targetGroups: string,
    bugsClosed: string)

  /** The three lines typed under --interactive: the summary, the description, and the answer
      to "append changesets to description? (Y/n)". */
  datatype Typed = Typed(summary: string, description: string, choice: string)

  const OutgoingMessage: string :=
    "When using the -g/--outgoingchanges flag, you must also use either the -o or the -O <repo> flag."
  const ServerMessage: string :=
    "please specify a reviewboard server in your .hgrc file or using the --server flag"
  const NoParentText: string := "Unable to determine parent revision for diff. "
  const OutgoingHint: string :=
    "If using -g/--outgoingchanges, make sure you have some (type 'hg out'). Did you forget to commit ('hg st')?"

  // ---- find_server, check_parent_options, expandpath ----------------------------------------------

  /** The --server option, else the configured server; neither aborts. */
  function FindServer(ui: Ui, opts: Options): (r: Result<string>)
    ensures r.Ok? <==> opts.server != "" || Config(ui, "server") != ""
    ensures r.Ok? ==> r.value != "" && (r.value == opts.server || (opts.server == "" && r.value == Config(ui, "server")))
    ensures r.Err? ==> r.failure == Abort(ServerMessage)
  {
    var server := if opts.server != "" then opts.server else Config(ui, "server");
    if server == "" then Err(Abort(ServerMessage)) else Ok(server)
  }

  /** Rejects two of --parent, --outgoingchanges and --branch together (not all three: see
      Command.ConflictingIffExactlyTwo), then --outgoingchanges without -o or -O. */
  function CheckParentOptions(opts: Options): (r: Result<()>)
    ensures FlagCount(opts.parent != "", opts.outgoingchanges, opts.branch) == 2 ==> r == Err(Abort(CombineMessage))
    ensures FlagCount(opts.parent != "", opts.outgoingchanges, opts.branch) != 2 ==>
              (r.Err? <==> opts.outgoingchanges && !opts.outgoing && opts.outgoingrepo == "")
    ensures r.Err? ==> r.failure == Abort(CombineMessage) || r.failure == Abort(OutgoingMessage)
  {
    var usep, useg, useb := opts.parent != "", opts.outgoingchanges, opts.branch;
    ConflictingIffExactlyTwo(usep, useg, useb);
    if Conflicting(usep, useg, useb) then Err(Abort(CombineMessage))
    else if useg && !(opts.outgoing || opts.outgoingrepo != "") then Err(Abort(OutgoingMessage))
    else Ok(())
  }

  /** The remote location: the given one expanded, or else the `reviewboard` path, falling back
      to `default-push` and then `default`. */
  function RemotePath(ui: Ui, upstream: string): string {
    if upstream != "" then ExpandPath(ui, upstream, None)
    else ExpandPath(ui, ExpandPath(ui, "reviewboard", Some("default-push")), Some("default"))
  }

  /** With `[paths]` entries that name locations, the upstream path is the `reviewboard` entry,
      else `default-push`, else `default`, as the command's help text documents. */
  lemma RemotePathPrecedence(ui: Ui)
    requires forall v :: v in ui.paths.Values ==> v in ui.locations
    requires "reviewboard" !in ui.locations
    ensures PathEntry(ui, "reviewboard") != "" ==> RemotePath(ui, "") == PathEntry(ui, "reviewboard")
    ensures PathEntry(ui, "reviewboard") == "" && PathEntry(ui, "default-push") != "" ==>
              RemotePath(ui, "") == PathEntry(ui, "default-push")
    ensures PathEntry(ui, "reviewboard") == "" && PathEntry(ui, "default-push") == "" && PathEntry(ui, "default") != "" ==>
              RemotePath(ui, "") == PathEntry(ui, "default")
    ensures PathEntry(ui, "reviewboard") == "" && PathEntry(ui, "default-push") == "" && PathEntry(ui, "default") == "" ==>
              RemotePath(ui, "") == "reviewboard"
  {
    var inner := ExpandPath(ui, "reviewboard", Some("default-push"));
    if inner != "reviewboard" {
      assert inner in ui.paths.Values;
    }
  }

  // ---- remoteparent, find_rparent ------------------------------------------------------------------

  /** `remoteparent(ui, repo, c, upstream)`: open the remote at the expanded location and take the
      first parent of the first outgoing revision that leads to c. */
  method RemoteParent(ui: Ui, repo: Repo, c: int, upstream: string) returns (r: Result<Option<int>>)
    ensures r == RemoteParentAt(repo, RemotePath(ui, upstream), c)
  {
    var remotepath := RemotePath(ui, upstream);
    if remotepath !in repo.outgoing {
      return Err(RemoteNotFound(remotepath));
    }
    var out := repo.outgoing[remotepath];
    var p := FirstOutgoingParent(repo.log, out, c);
    return Ok(p);
  }

  /** --master, else the remote parent for -O, else for -o, else none. */
  function FindRParent(ui: Ui, repo: Repo, c: int, opts: Options): (r: Result<Option<int>>)
  {
    if opts.master != "" then
      var m :- Lookup(repo, opts.master);
      Ok(Some(m))
    else if opts.outgoingrepo != "" then RemoteParentAt(repo, RemotePath(ui, opts.outgoingrepo), c)
    else if opts.outgoing then RemoteParentAt(repo, RemotePath(ui, ""), c)
    else Ok(None)
  }

  /** --master wins over -O, which wins over -o; the remote parent is absent only without all
      three, or when no outgoing revision leads to c. */
  lemma RParentPrecedence(ui: Ui, repo: Repo, c: int, opts: Options)
    ensures opts.master != "" ==> FindRParent(ui, repo, c, opts) == (if opts.master in repo.names then Ok(Some(repo.names[opts.master])) else Err(UnknownRevision(opts.master)))
    ensures opts.master == "" && opts.outgoingrepo != "" ==> FindRParent(ui, repo, c, opts) == RemoteParentAt(repo, RemotePath(ui, opts.outgoingrepo), c)
    ensures opts.master == "" && opts.outgoingrepo == "" && opts.outgoing ==> FindRParent(ui, repo, c, opts) == RemoteParentAt(repo, RemotePath(ui, ""), c)
    ensures FindRParent(ui, repo, c, opts) == Ok(None) <==>
              || (opts.master == "" && opts.outgoingrepo == "" && !opts.outgoing)
              || (opts.master == "" &&
                  var path := if opts.outgoingrepo != "" then RemotePath(ui, opts.outgoingrepo) else RemotePath(ui, "");
                  (opts.outgoingrepo != "" || opts.outgoing) && path in repo.outgoing &&
                  forall j :: 0 <= j < |repo.outgoing[path]| ==> !IsAncestor(repo.log, repo.outgoing[path][j], c))
  {
    if opts.master == "" && (opts.outgoingrepo != "" || opts.outgoing) {
      var path := if opts.outgoingrepo != "" then RemotePath(ui, opts.outgoingrepo) else RemotePath(ui, "");
      if path in repo.outgoing {
        RemoteParentIsFirstOutgoingAncestor(repo.log, repo.outgoing[path], c);
      }
    }
  }

  // ---- find_branch_parent --------------------------------------------------------------------------

  /** The first revision down c's first-parent chain that is off c's branch; the null revision
      when the whole chain back to the root is on it. */
  function BranchParent(log: Log, c: int): int {
    var ch := Chain(log, c);
    var k := FirstOffBranch(log, ch, Branch(log, c));
    if k < |ch| then ch[k] else Null
  }

  lemma BranchParentIsFirstOffBranch(log: Log, c: int)
    requires IsRev(log, c)
    ensures var r := BranchParent(log, c); var ch := Chain(log, c);
            && (r == Null <==> forall i :: 0 <= i < |ch| ==> Branch(log, ch[i]) == Branch(log, c))
            && (r != Null ==> exists k :: 0 < k < |ch| && r == ch[k] && Branch(log, r) != Branch(log, c)
                                      && forall i :: 0 <= i < k ==> Branch(log, ch[i]) == Branch(log, c))
            && IsAncestor(log, r, c)
  {
    var ch := Chain(log, c);
    var k := FirstOffBranch(log, ch, Branch(log, c));
    ChainAncestors(log, c);
    if k < |ch| {
      assert ch[0] == c;
    } else {
      NullIsAncestor(log, c);
    }
  }

  /** `find_branch_parent`: step to the first parent while there is one and the branch is
      unchanged; a walk that ends at a root still on the branch yields the null revision. */
  method FindBranchParent(log: Log, c: int) returns (r: int)
    ensures r == BranchParent(log, c)
  {
    var branchname := Branch(log, c);
    var currctx := c;
    while Truthy(FirstParent(log, currctx)) && Branch(log, currctx) == branchname
      invariant WalkBack(log, currctx, branchname) == WalkBack(log, c, branchname)
      decreases if currctx in log then currctx + 1 else 0
    {
      currctx := FirstParent(log, currctx);
    }
    WalkBackStopsOffBranch(log, c, branchname);
    ChainRootIsLast(log, c);
    if !Truthy(FirstParent(log, currctx)) && Branch(log, currctx) == branchname {
      return Null;
    }
    return currctx;
  }

  // ---- find_parent and the None abort ----------------------------------------------------------------

  /** -g takes the remote parent; else --parent is looked up; else --branch walks to the branch
      parent; else the first parent of c. */
  function FindParent(repo: Repo, c: int, rparent: Option<int>, opts: Options): (r: Result<Option<int>>)
    ensures r == Ok(None) <==> opts.outgoingchanges && rparent.None?
    ensures r.Err? ==> !opts.outgoingchanges && opts.parent != "" && r.failure == UnknownRevision(opts.parent)
    ensures opts.outgoingchanges ==> r == Ok(rparent)
    ensures !opts.outgoingchanges && opts.parent != "" && r.Ok? ==> Lookup(repo, opts.parent) == Ok(r.value.value)
    ensures !opts.outgoingchanges && opts.parent == "" && opts.branch ==> r == Ok(Some(BranchParent(repo.log, c)))
    ensures !opts.outgoingchanges && opts.parent == "" && !opts.branch ==> r == Ok(Some(FirstParent(repo.log, c)))
  {
    if opts.outgoingchanges then Ok(rparent)
    else if opts.parent != "" then
      var p :- Lookup(repo, opts.parent);
      Ok(Some(p))
    else if opts.branch then Ok(Some(BranchParent(repo.log, c)))
    else Ok(Some(FirstParent(repo.log, c)))
  }

  /** Without -g and --parent, the diff base is an ancestor of c (its first parent, or its branch
      parent under --branch). */
  lemma DefaultParentIsAncestor(repo: Repo, c: int, rparent: Option<int>, opts: Options)
    requires IsRev(repo.log, c)
    requires !opts.outgoingchanges && opts.parent == ""
    ensures FindParent(repo, c, rparent, opts).Ok?
    ensures IsAncestor(repo.log, FindParent(repo, c, rparent, opts).value.value, c)
    ensures !opts.branch ==> FindParent(repo, c, rparent, opts).value.value == FirstParent(repo.log, c)
  {
    if opts.branch {
      BranchParentIsFirstOffBranch(repo.log, c);
    } else if c != Null {
      assert IsAncestor(repo.log, repo.log[c].first, repo.log[c].first);
    }
  }

  function NoParentMessage(outgoingchanges: bool): string {
    NoParentText + if outgoingchanges then OutgoingHint else ""
  }

  /** What `postreview` settles before any diff is taken. */
  datatype Resolution = Resolution(target: int, rparent: Option<int>, parent: int)

  /** The steps of `postreview` up to the parent: server, option check, the revision, the
      remote parent, the parent, and the abort when no parent was found. */
  function Resolve(ui: Ui, repo: Repo, rev: string, opts: Options): (r: Result<Resolution>)
    ensures r.Ok? ==> && FindServer(ui, opts).Ok?
                      && CheckParentOptions(opts).Ok?
                      && Lookup(repo, rev) == Ok(r.value.target)
                      && FindRParent(ui, repo, r.value.target, opts) == Ok(r.value.rparent)
                      && FindParent(repo, r.value.target, r.value.rparent, opts) == Ok(Some(r.value.parent))
    ensures FindServer(ui, opts).Err? ==> r == Err(FindServer(ui, opts).failure)
    ensures FindServer(ui, opts).Ok? && CheckParentOptions(opts).Err? ==> r == Err(CheckParentOptions(opts).failure)
    ensures FindServer(ui, opts).Ok? && CheckParentOptions(opts).Ok? && Lookup(repo, rev).Err? ==>
              r == Err(Lookup(repo, rev).failure)
    ensures FindServer(ui, opts).Ok? && CheckParentOptions(opts).Ok? && Lookup(repo, rev).Ok?
              && FindRParent(ui, repo, Lookup(repo, rev).value, opts).Err? ==>
              r == Err(FindRParent(ui, repo, Lookup(repo, rev).value, opts).failure)
  {
    var _ :- FindServer(ui, opts);
    var _ :- CheckParentOptions(opts);
    var c :- Lookup(repo, rev);
    var rparent :- FindRParent(ui, repo, c, opts);
    var parent :- FindParent(repo, c, rparent, opts);
    if parent.None? then Err(Abort(NoParentMessage(opts.outgoingchanges)))
    else Ok(Resolution(c, rparent, parent.value))
  }

  /** Once the server, the options, the revision and the remote parent are settled, `postreview`
      aborts for want of a parent exactly under -g with no remote parent found, and the message
      then carries the `hg out` hint; otherwise only a --parent that does not resolve fails. */
  lemma NoParentAbortOnlyUnderOutgoingChanges(ui: Ui, repo: Repo, rev: string, opts: Options)
    requires FindServer(ui, opts).Ok? && CheckParentOptions(opts).Ok? && Lookup(repo, rev).Ok?
    requires FindRParent(ui, repo, Lookup(repo, rev).value, opts).Ok?
    ensures var c := Lookup(repo, rev).value;
            var rparent := FindRParent(ui, repo, c, opts).value;
            && (opts.outgoingchanges && rparent.None? ==> Resolve(ui, repo, rev, opts) == Err(Abort(NoParentText + OutgoingHint)))
            && (Resolve(ui, repo, rev, opts).Err? <==> (opts.outgoingchanges && rparent.None?) || FindParent(repo, c, rparent, opts).Err?)
            && (!opts.outgoingchanges ==> Resolve(ui, repo, rev, opts).Err? ==> Resolve(ui, repo, rev, opts).failure == UnknownRevision(opts.parent))
  {
  }

  // ---- create_review_data ----------------------------------------------------------------------------

  /** `rparent != None and parent != rparent`: the null revision counts as a remote parent. */
  predicate NeedsParentDiff(rparent: Option<int>, parent: int) {
    rparent.Some? && parent != rparent.value
  }

  /** The diff from parent to c, and the parent diff from the remote parent to parent when one is
      needed. `diff(a, b)` is the backend's diff from revision a to revision b. */
  function CreateReviewData(diff: (int, int) -> string, c: int, parent: int, rparent: Option<int>): (r: (string, string))
    ensures r.0 == diff(parent, c)
    ensures rparent.None? || rparent == Some(parent) ==> r.1 == ""
    ensures NeedsParentDiff(rparent, parent) ==> r.1 == diff(rparent.value, parent)
  {
    (diff(parent, c), if NeedsParentDiff(rparent, parent) then diff(rparent.value, parent) else "")
  }

  // ---- find_contexts, the changeset listing ----------------------------------------------------------

  /** `find_contexts`: walk `nodesbetween([parent], [c])`, skip the parent and (under --branch)
      revisions off c's branch, then reverse. */
  method FindContexts(log: Log, parentctx: int, ctx: int, onlyBranch: bool) returns (contexts: seq<int>)
    ensures contexts == Collected(log, parentctx, ctx, onlyBranch)
  {
    var nodes := Between(log, parentctx, ctx);
    contexts := [];
    for i := 0 to |nodes|
      invariant Increasing(nodes[..i])
      invariant contexts == Keep(log, nodes[..i], parentctx, ctx, onlyBranch)
    {
      KeepStep(log, nodes, i, parentctx, ctx, onlyBranch);
      var node := nodes[i];
      if node == parentctx {
        assert !Kept(log, node, parentctx, ctx, onlyBranch);
        continue;
      }
      if onlyBranch && Branch(log, node) != Branch(log, ctx) {
        assert !Kept(log, node, parentctx, ctx, onlyBranch);
        continue;
      }
      assert Kept(log, node, parentctx, ctx, onlyBranch);
      contexts := contexts + [node];
    }
    assert nodes[..|nodes|] == nodes;
    contexts := Reverse(contexts);
  }

  /** `'%s:%s "%s"\n------------------------------\n' % (ctx.rev(), ctx, ctx.description())`. */
  function Entry(log: Log, x: int): string {
    DecimalString(x) + ":" + Hash(log, x) + " \"" + History.Description(log, x) + "\"\n" + "------------------------------" + "\n"
  }

  function EntryOf(log: Log): int -> string {
    x => Entry(log, x)
  }

  /** The changeset text shown to the user and used as the default description. */
  function ChangesetsText(log: Log, parent: int, c: int, branch: bool): string {
    Listing(if branch then Some(Branch(log, c)) else None, Entries(Collected(log, parent, c, branch), EntryOf(log)))
  }

  // ---- createfields ----------------------------------------------------------------------------------

  /** Summary and description are (re)written when --update is given or no request exists yet. */
  predicate Rewrites(opts: Options) {
    opts.update || opts.existing == ""
  }

  /** The summary offered: --summary, else the first line of c's description. */
  function DefaultSummary(log: Log, c: int, opts: Options): Option<string> {
    if opts.summary != "" then Some(opts.summary) else FirstLine(History.Description(log, c))
  }

  function SummaryField(default: string, opts: Options, typed: Typed): string {
    if opts.interactive && Strip(typed.summary) != "" then Strip(typed.summary) else default
  }

  function DescriptionField(changesets: string, opts: Options, typed: Typed): string {
    if !opts.interactive then changesets
    else
      var description := Strip(typed.description);
      if Strip(typed.choice) == "n" then description
      else (if description != "" then description + "\n\n" else description) + changesets
  }

  const TargetKeys: seq<Field> := [TargetGroups, TargetPeople, BugsClosed]

  function OptionFor(opts: Options, key: Field): string {
    match key
    case TargetGroups => opts.targetGroups
    case TargetPeople => opts.targetPeople
    case BugsClosed => opts.bugsClosed
    case _ => ""
  }

  /** The option value when given, else the configured one. */
  function TargetValue(ui: Ui, opts: Options, key: Field): string {
    if OptionFor(opts, key) != "" then OptionFor(opts, key) else Config(ui, key.Name())
  }

  function TargetValues(ui: Ui, opts: Options): map<Field, string> {
    map[TargetGroups := TargetValue(ui, opts, TargetGroups),
        TargetPeople := TargetValue(ui, opts, TargetPeople),
        BugsClosed := TargetValue(ui, opts, BugsClosed)]
  }

  /** Summary, description and branch, when they are to be (re)written. */
  function Rewritten(log: Log, c: int, opts: Options, typed: Typed, changesets: string): map<Field, string>
    requires Rewrites(opts) ==> DefaultSummary(log, c, opts).Some?
  {
    if Rewrites(opts) then
      map[Summary := SummaryField(DefaultSummary(log, c, opts).value, opts, typed),
          Field.Description := DescriptionField(changesets, opts, typed),
          BranchName := Branch(log, c)]
    else map[]
  }

  /** The fields `createfields` sends, or IndexError when the summary would be the first line of
      an empty description. */
  function Fields(ui: Ui, log: Log, c: int, opts: Options, typed: Typed, changesets: string): (r: Result<map<Field, string>>)
    ensures r.Err? <==> Rewrites(opts) && opts.summary == "" && History.Description(log, c) == ""
    ensures r.Err? ==> r.failure == Uncaught("IndexError")
  {
    if Rewrites(opts) && DefaultSummary(log, c, opts).None? then Err(Uncaught("IndexError"))
    else Ok(AddTargets(Rewritten(log, c, opts, typed, changesets), TargetKeys, TargetValues(ui, opts)))
  }

  /** Summary, description and branch are sent exactly when --update is given or no request
      exists yet, with the offered summary, the description and c's branch. */
  lemma RewrittenFieldsOnlyWhenAsked(ui: Ui, log: Log, c: int, opts: Options, typed: Typed, changesets: string)
    requires Fields(ui, log, c, opts, typed, changesets).Ok?
    ensures var f := Fields(ui, log, c, opts, typed, changesets).value;
            && (Summary in f <==> Rewrites(opts))
            && (Field.Description in f <==> Rewrites(opts))
            && (BranchName in f <==> Rewrites(opts))
            && (Rewrites(opts) ==>
                  && f[Summary] == SummaryField(DefaultSummary(log, c, opts).value, opts, typed)
                  && f[Field.Description] == DescriptionField(changesets, opts, typed)
                  && f[BranchName] == Branch(log, c))
  {
    var base := Rewritten(log, c, opts, typed, changesets);
    var values := TargetValues(ui, opts);
    AddTargetsAt(base, TargetKeys, values, Summary);
    AddTargetsAt(base, TargetKeys, values, Field.Description);
    AddTargetsAt(base, TargetKeys, values, BranchName);
  }

  /** Each target field is sent exactly when its option, else its configured value, is
      non-empty, and with that value. */
  lemma TargetFieldsFromOptionsOrConfig(ui: Ui, log: Log, c: int, opts: Options, typed: Typed, changesets: string)
    requires Fields(ui, log, c, opts, typed, changesets).Ok?
    ensures var f := Fields(ui, log, c, opts, typed, changesets).value;
            forall k :: k in TargetKeys ==>
              && (k in f <==> TargetValue(ui, opts, k) != "")
              && (k in f ==> f[k] == TargetValue(ui, opts, k))
  {
    var base := Rewritten(log, c, opts, typed, changesets);
    var values := TargetValues(ui, opts);
    forall k | k in TargetKeys
      ensures var f := AddTargets(base, TargetKeys, values);
              && (k in f <==> TargetValue(ui, opts, k) != "")
              && (k in f ==> f[k] == TargetValue(ui, opts, k))
    {
      AddTargetsAt(base, TargetKeys, values, k);
    }
  }

  /** `createfields`: collect the contexts, build the changeset text, then fill the fields. */
  method CreateFields(ui: Ui, log: Log, c: int, parentc: int, opts: Options, typed: Typed) returns (r: Result<map<Field, string>>)
    ensures r == Fields(ui, log, c, opts, typed, ChangesetsText(log, parentc, c, opts.branch))
  {
    var allContexts := FindContexts(log, parentc, c, opts.branch);
    var changesets := Listing(if opts.branch then Some(Branch(log, c)) else None, Entries(allContexts, EntryOf(log)));
    assert changesets == ChangesetsText(log, parentc, c, opts.branch);
    var fields: map<Field, string> := map[];
    if Rewrites(opts) {
      var defaultSummary := DefaultSummary(log, c, opts);
      if defaultSummary.None? {
        return Err(Uncaught("IndexError"));
      }
      fields := fields[Summary := SummaryField(defaultSummary.value, opts, typed)];
      fields := fields[Field.Description := DescriptionField(changesets, opts, typed)];
      fields := fields[BranchName := Branch(log, c)];
    }
    fields := FillTargets(fields, TargetKeys, TargetValues(ui, opts));
    return Ok(fields);
  }

  // ---- find_reviewboard_repo_id ----------------------------------------------------------------------

  /** What `find_reviewboard_repo_id` settles on, given the server's reply to the listing
      request and the answer typed at the prompt. */
  function RepoIdChoice(ui: Ui, listing: Reply<seq<Repository>>, opts: Options, answer: string): Result<RepoId> {
    if opts.repoid != "" then Ok(StringId(opts.repoid))
    else if Config(ui, "repoid") != "" then Ok(StringId(Config(ui, "repoid")))
    else match listing
      case Refusal(message) => Err(Abort(message))
      case Answer(rs) =>
        if rs == [] then Err(Uncaught("NameError"))  // the message names a variable the function does not define
        else
          var sorted := SortByName(rs);
          match LastMatch(sorted, Lower(RemotePath(ui, opts.outgoingrepo)))
          case Some(id) => Ok(StringId(DecimalString(id)))
          case None =>
            if |sorted| > 1 then (if answer in ListedIds(sorted, true) then Ok(StringId(answer)) else Err(Abort(InvalidIdMessage(answer))))
            else Ok(StringId(DecimalString(sorted[0].id)))
  }

  /** An explicit id as given, else the configured one; else the last Mercurial repository whose
      path is the remote location; else, with several repositories, the typed id when it is one
      of the listed Mercurial ids; else the only repository's id. */
  lemma RepoIdChoiceCases(ui: Ui, listing: Reply<seq<Repository>>, opts: Options, answer: string)
    ensures var r := RepoIdChoice(ui, listing, opts, answer);
            && (opts.repoid != "" ==> r == Ok(StringId(opts.repoid)))
            && (opts.repoid == "" && Config(ui, "repoid") != "" ==> r == Ok(StringId(Config(ui, "repoid"))))
            && (opts.repoid == "" && Config(ui, "repoid") == "" && listing.Refusal? ==> r == Err(Abort(listing.message)))
            && (opts.repoid == "" && Config(ui, "repoid") == "" && listing == Answer([]) ==> r == Err(Uncaught("NameError")))
            && (opts.repoid == "" && Config(ui, "repoid") == "" && listing.Answer? && listing.value != [] ==>
                  var rs := listing.value;
                  match LastMatch(SortByName(rs), Lower(RemotePath(ui, opts.outgoingrepo)))
                  case Some(id) => r == Ok(StringId(DecimalString(id)))
                  case None =>
                    if |rs| > 1 then
                      r == (if answer in ListedIds(rs, true) then Ok(StringId(answer)) else Err(Abort(InvalidIdMessage(answer))))
                    else r == Ok(StringId(DecimalString(rs[0].id))))
  {
    if opts.repoid == "" && Config(ui, "repoid") == "" && listing.Answer? && listing.value != [] {
      var rs := listing.value;
      var sorted := SortByName(rs);
      ListedIdsOrderFree(sorted, rs, true);
      assert sorted[0] in multiset(rs);
    }
  }

  /** `find_reviewboard_repo_id`: the loops over the sorted listing. The listing is requested
      only when no id is given or configured. */
  method FindReviewboardRepoId(ui: Ui, client: Client, opts: Options, answer: string) returns (r: Result<RepoId>, calls: seq<Event>)
    ensures r == RepoIdChoice(ui, client.repositories, opts, answer)
    ensures calls == Listed(ui, opts)
  {
    calls := [];
    if opts.repoid != "" {
      return Ok(StringId(opts.repoid)), calls;
    } else if Config(ui, "repoid") != "" {
      return Ok(StringId(Config(ui, "repoid"))), calls;
    }
    calls := [ListRepositories];
    if client.repositories.Refusal? {
      return Err(Abort(client.repositories.message)), calls;
    }
    var repositories := client.repositories.value;
    if repositories == [] {
      return Err(Uncaught("NameError")), calls;
    }
    var sorted := SortByName(repositories);
    var remotepath := Lower(RemotePath(ui, opts.outgoingrepo));
    var repoId := MatchRepository(sorted, remotepath);
    if repoId.Some? {
      return Ok(StringId(DecimalString(repoId.value))), calls;
    }
    var repoIds := CollectIds(sorted, true);
    if |sorted| > 1 {
      if answer !in repoIds {
        return Err(Abort(InvalidIdMessage(answer))), calls;
      }
      return Ok(StringId(answer)), calls;
    }
    return Ok(StringId(DecimalString(sorted[0].id))), calls;
  }

  // ---- update_review, new_review, send_review, postreview --------------------------------------------

  /** The repository listing is requested only when no id is given or configured. */
  function Listed(ui: Ui, opts: Options): seq<Event> {
    if opts.repoid == "" && Config(ui, "repoid") == "" then [ListRepositories] else []
  }

  /** `update_review`: update the request, then publish it under --publish; a refusal aborts. */
  method UpdateReview(requestId: string, client: Client, opts: Options) returns (r: Result<()>, calls: seq<Event>)
    ensures r.Ok? <==> client.updateRequest.Answer? && (!opts.publish || client.publish.Answer?)
    ensures client.updateRequest.Refusal? ==> r == Err(Abort(client.updateRequest.message)) && calls == [UpdateRequest(requestId)]
    ensures client.updateRequest.Answer? ==> calls == [UpdateRequest(requestId)] + (if opts.publish then [Publish(requestId)] else [])
    ensures client.updateRequest.Answer? && opts.publish && client.publish.Refusal? ==> r == Err(Abort(client.publish.message))
  {
    calls := [UpdateRequest(requestId)];
    if client.updateRequest.Refusal? {
      return Err(Abort(client.updateRequest.message)), calls;
    }
    if opts.publish {
      calls := calls + [Publish(requestId)];
      if client.publish.Refusal? {
        return Err(Abort(client.publish.message)), calls;
      }
    }
    return Ok(()), calls;
  }

  /** `new_review`: choose the repository, create the request in it, then publish it under
      --publish; the new request's id is returned. A failed choice stops before the creation. */
  method NewReview(ui: Ui, client: Client, opts: Options, answer: string) returns (r: Result<string>, calls: seq<Event>)
    ensures RepoIdChoice(ui, client.repositories, opts, answer).Err? ==>
              r == Err(RepoIdChoice(ui, client.repositories, opts, answer).failure) && calls == Listed(ui, opts)
    ensures r.Ok? ==> client.newRequest.Answer? && r.value == DecimalString(client.newRequest.value)
    ensures r.Ok? ==>
              && RepoIdChoice(ui, client.repositories, opts, answer).Ok?
              && calls == Listed(ui, opts) + [NewRequest(RepoIdChoice(ui, client.repositories, opts, answer).value)]
                          + (if opts.publish then [Publish(r.value)] else [])
  {
    var repoId, listed := FindReviewboardRepoId(ui, client, opts, answer);
    calls := listed;
    if repoId.Err? {
      return Err(repoId.failure), calls;
    }
    calls := calls + [NewRequest(repoId.value)];
    if client.newRequest.Refusal? {
      return Err(Abort(client.newRequest.message)), calls;
    }
    var requestId := DecimalString(client.newRequest.value);
    if opts.publish {
      calls := calls + [Publish(requestId)];
      if client.publish.Refusal? {
        return Err(Abort(client.publish.message)), calls;
      }
    }
    return Ok(requestId), calls;
  }

  /** The server calls of a successful update or creation of request `requestId`; a creation is
      in the repository `find_reviewboard_repo_id` chooses. */
  function SubmitCalls(ui: Ui, client: Client, opts: Options, answer: string, requestId: string): seq<Event> {
    (if opts.existing != "" then [UpdateRequest(opts.existing)]
     else Listed(ui, opts) + Creation(RepoIdChoice(ui, client.repositories, opts, answer)))
    + (if opts.publish then [Publish(requestId)] else [])
  }

  /** The part of `send_review` that updates the existing request (--existing) or creates a new
      one; answers the request id. */
  method Submit(ui: Ui, client: Client, opts: Options, answer: string) returns (r: Result<string>, calls: seq<Event>)
    ensures r.Ok? && opts.existing != "" ==> r.value == opts.existing
    ensures r.Ok? && opts.existing == "" ==> client.newRequest.Answer? && r.value == DecimalString(client.newRequest.value)
    ensures r.Ok? ==> calls == SubmitCalls(ui, client, opts, answer, r.value)
  {
    if opts.existing != "" {
      var updated;
      updated, calls := UpdateReview(opts.existing, client, opts);
      if updated.Err? {
        return Err(updated.failure), calls;
      }
      return Ok(opts.existing), calls;
    }
    r, calls := NewReview(ui, client, opts, answer);
  }

  /** `send_review`: log in, build the fields, update the existing request or create a new one,
      and report the request's URL. */
  method SendReview(ui: Ui, log: Log, c: int, parent: int, rparent: Option<int>, d: string, parentdiff: string,
                    opts: Options, server: string, client: Client, typed: Typed, answer: string)
    returns (r: Result<Review>, calls: seq<Event>)
    ensures calls != [] && calls[0] == Login
    ensures client.login.Refusal? ==> r == Err(Abort(client.login.message)) && calls == [Login]
    ensures client.login.Answer? && Rewrites(opts) && opts.summary == "" && History.Description(log, c) == "" ==>
              r == Err(Uncaught("IndexError")) && calls == [Login]
    ensures r.Ok? ==>
              && r.value == Review(c, parent, rparent, d, parentdiff, r.value.fields, r.value.requestId, r.value.url)
              && Fields(ui, log, c, opts, typed, ChangesetsText(log, parent, c, opts.branch)) == Ok(r.value.fields)
              && r.value.url == RequestUrl(server, r.value.requestId)
    ensures r.Ok? && opts.existing != "" ==> r.value.requestId == opts.existing
    ensures r.Ok? && opts.existing == "" ==> client.newRequest.Answer? && r.value.requestId == DecimalString(client.newRequest.value)
    ensures r.Ok? ==> calls == [Login] + SubmitCalls(ui, client, opts, answer, r.value.requestId)
  {
    calls := [Login];
    if client.login.Refusal? {
      return Err(Abort(client.login.message)), calls;
    }
    var fields := CreateFields(ui, log, c, parent, opts, typed);
    if fields.Err? {
      return Err(fields.failure), calls;
    }
    var requestId, more := Submit(ui, client, opts, answer);
    calls := calls + more;
    if requestId.Err? {
      return Err(requestId.failure), calls;
    }
    var url := RequestUrl(server, requestId.value);
    return Ok(Review(c, parent, rparent, d, parentdiff, fields.value, requestId.value, url)), calls;
  }

  /** One run of `hg postreview`: settle the revisions (an abort there leaves the server
      untouched), take the diffs, then send the review. Returns the review and the server calls
      made, in order. */
  method PostReview(ui: Ui, repo: Repo, rev: string, opts: Options, client: Client,
                    diff: (int, int) -> string, typed: Typed, answer: string)
    returns (r: Result<Review>, calls: seq<Event>)
    ensures Resolve(ui, repo, rev, opts).Err? ==> r == Err(Resolve(ui, repo, rev, opts).failure) && calls == []
    ensures Resolve(ui, repo, rev, opts).Ok? ==> calls != [] && calls[0] == Login
    ensures r.Ok? ==>
              var res := Resolve(ui, repo, rev, opts).value;
              && r.value.target == res.target
              && r.value.parent == res.parent
              && r.value.rparent == res.rparent
              && (r.value.diff, r.value.parentDiff) == CreateReviewData(diff, res.target, res.parent, res.rparent)
              && Fields(ui, repo.log, res.target, opts, typed, ChangesetsText(repo.log, res.parent, res.target, opts.branch)) == Ok(r.value.fields)
              && r.value.url == RequestUrl(FindServer(ui, opts).value, r.value.requestId)
              && calls == [Login] + SubmitCalls(ui, client, opts, answer, r.value.requestId)
    ensures r.Ok? && opts.existing != "" ==> r.value.requestId == opts.existing
    ensures r.Ok? && opts.existing == "" ==> client.newRequest.Answer? && r.value.requestId == DecimalString(client.newRequest.value)
  {
    var resolved := Resolve(ui, repo, rev, opts);
    if resolved.Err? {
      return Err(resolved.failure), [];
    }
    var c, rparent, parent := resolved.value.target, resolved.value.rparent, resolved.value.parent;
    var (d, parentdiff) := CreateReviewData(diff, c, parent, rparent);
    var server := FindServer(ui, opts).value;
    r, calls := SendReview(ui, repo.log, c, parent, rparent, d, parentdiff, opts, server, client, typed, answer);
  }
}
