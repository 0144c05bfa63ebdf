/** `hg postreview` as in the oldest, single-function version of the extension (__init__.py):
    parent, remote parent, fields, server calls and repository choice inline in one procedure. */
module LegacyPostreview {
  import opened Base
  import opened Text
  import opened History
  import opened HgUi
  import opened ReviewBoard
  import opened Command
  import HgReviewboard

  /** The options of this version; the target lists are list-valued. */
  datatype Options = Options(
    outgoing: bool,
    outgoingrepo: string,
    repoid: string,
    master: string,
    existing: string,
    update: bool,
    publish: bool,
    parent: string,
    targetPeople: seq<string>,
    targetGroups: seq<string>)

  const ServerMessage: string := "please specify a reviewboard server in your .hgrc file"

  function NoRepositoriesMessage(server: string): (m: string)
    ensures StartsWith(m, "no repositories configured at ")
    ensures |server| <= |m| && m[|m| - |server|..] == server
  {
    var prefix := "no repositories configured at ";
    assert (prefix + server)[..|prefix|] == prefix;
    prefix + server
  }

  /** The diff base: `repo[--parent]`, else the first parent of `rev`. */
  function ParentFor(repo: Repo, rev: string, opts: Options): (r: Result<int>)
    ensures opts.parent != "" ==> r == Lookup(repo, opts.parent)
    ensures opts.parent == "" ==> r.Ok? == Lookup(repo, rev).Ok?
    ensures opts.parent == "" && r.Ok? ==> r.value == FirstParent(repo.log, Lookup(repo, rev).value)
    ensures opts.parent == "" && r.Err? ==> r.failure == UnknownRevision(rev)
  {
    if opts.parent != "" then Lookup(repo, opts.parent)
    else
      var c :- Lookup(repo, rev);
      Ok(FirstParent(repo.log, c))
  }

  /** `remoteparent` of this version: open the remote, then resolve `rev` (for the unused
      ancestor set), then the first outgoing revision leading to `rev`. */
  function RemoteParentFor(repo: Repo, path: string, rev: string): (r: Result<Option<int>>)
    ensures path !in repo.outgoing ==> r == Err(RemoteNotFound(path))
    ensures path in repo.outgoing ==> r.Ok? == Lookup(repo, rev).Ok?
    ensures path in repo.outgoing && Lookup(repo, rev).Err? ==> r == Err(UnknownRevision(rev))
    ensures r.Ok? ==> r == RemoteParentAt(repo, path, Lookup(repo, rev).value)
  {
    if path !in repo.outgoing then Err(RemoteNotFound(path))
    else
      var c :- Lookup(repo, rev);
      RemoteParentAt(repo, path, c)
  }

  method RemoteParent(ui: Ui, repo: Repo, rev: string, upstream: string) returns (r: Result<Option<int>>)
    ensures r == RemoteParentFor(repo, HgReviewboard.RemotePath(ui, upstream), rev)
  {
    var remotepath := if upstream != "" then ExpandPath(ui, upstream, None) else ExpandPath(ui, "default-push", Some("default"));
    if remotepath !in repo.outgoing {
      return Err(RemoteNotFound(remotepath));
    }
    var out := repo.outgoing[remotepath];
    var c := Lookup(repo, rev);
    if c.Err? {
      return Err(c.failure);
    }
    var p := FirstOutgoingParent(repo.log, out, c.value);
    return Ok(p);
  }

  /** --master, else -O, else -o, else none. */
  function RParentFor(ui: Ui, repo: Repo, rev: string, opts: Options): (r: Result<Option<int>>)
    ensures opts.master != "" ==> r.Ok? == Lookup(repo, opts.master).Ok? && (r.Ok? ==> r.value == Some(Lookup(repo, opts.master).value))
    ensures opts.master == "" && opts.outgoingrepo != "" ==> r == RemoteParentFor(repo, HgReviewboard.RemotePath(ui, opts.outgoingrepo), rev)
    ensures opts.master == "" && opts.outgoingrepo == "" && opts.outgoing ==> r == RemoteParentFor(repo, HgReviewboard.RemotePath(ui, ""), rev)
    ensures opts.master == "" && opts.outgoingrepo == "" && !opts.outgoing ==> r == Ok(None)
  {
    if opts.master != "" then
      var m :- Lookup(repo, opts.master);
      Ok(Some(m))
    else if opts.outgoingrepo != "" then RemoteParentFor(repo, HgReviewboard.RemotePath(ui, opts.outgoingrepo), rev)
    else if opts.outgoing then RemoteParentFor(repo, HgReviewboard.RemotePath(ui, ""), rev)
    else Ok(None)
  }

  /** A remote parent found from the outgoing list is the first parent of an outgoing revision
      that is `rev` or one of its ancestors. */
  lemma RemoteParentFromOutgoingAncestor(ui: Ui, repo: Repo, rev: string, opts: Options)
    requires opts.master == "" && RParentFor(ui, repo, rev, opts).Ok? && RParentFor(ui, repo, rev, opts).value.Some?
    ensures var path := HgReviewboard.RemotePath(ui, if opts.outgoingrepo != "" then opts.outgoingrepo else "");
            && path in repo.outgoing && Lookup(repo, rev).Ok?
            && exists j :: 0 <= j < |repo.outgoing[path]| && IsAncestor(repo.log, repo.outgoing[path][j], Lookup(repo, rev).value)
                           && RParentFor(ui, repo, rev, opts).value.value == FirstParent(repo.log, repo.outgoing[path][j])
  {
    var path := HgReviewboard.RemotePath(ui, if opts.outgoingrepo != "" then opts.outgoingrepo else "");
    RemoteParentIsFirstOutgoingAncestor(repo.log, repo.outgoing[path], Lookup(repo, rev).value);
  }

  predicate Rewrites(opts: Options) {
    opts.update || opts.existing == ""
  }

  /** `','.join(option)` when the option list is non-empty, else the configured value. */
  function TargetValue(ui: Ui, given: seq<string>, key: Field): string {
    if given != [] then Join(given, ',') else Config(ui, key.Name())
  }

  function TargetValues(ui: Ui, opts: Options): map<Field, string> {
    map[TargetGroups := TargetValue(ui, opts.targetGroups, TargetGroups),
        TargetPeople := TargetValue(ui, opts.targetPeople, TargetPeople)]
  }

  /** The summary and description of this version: the first line and the whole description. */
  function Rewritten(log: Log, c: int, opts: Options): map<Field, string>
    requires Rewrites(opts) ==> History.Description(log, c) != ""
  {
    if Rewrites(opts) then
      map[Summary := FirstLine(History.Description(log, c)).value, Field.Description := History.Description(log, c)]
    else map[]
  }

  function Fields(ui: Ui, log: Log, c: int, opts: Options): (r: Result<map<Field, string>>)
    ensures r.Err? <==> Rewrites(opts) && History.Description(log, c) == ""
    ensures r.Err? ==> r.failure == Uncaught("IndexError")
  {
    if Rewrites(opts) && History.Description(log, c) == "" then Err(Uncaught("IndexError"))
    else Ok(AddTargets(Rewritten(log, c, opts), HgReviewboard.TargetKeys, TargetValues(ui, opts)))
  }

  /** Summary and description are sent exactly when --update is given or no request exists,
      the summary being the first line of the description and the description the whole of it;
      the branch and bugs_closed fields never are. */
  lemma FieldsOfThisVersion(ui: Ui, log: Log, c: int, opts: Options)
    requires Fields(ui, log, c, opts).Ok?
    ensures var f := Fields(ui, log, c, opts).value;
            && (Summary in f <==> Rewrites(opts))
            && (Field.Description in f <==> Rewrites(opts))
            && (Rewrites(opts) ==>
                  && FirstLine(History.Description(log, c)).Some?
                  && f[Summary] == FirstLine(History.Description(log, c)).value
                  && f[Field.Description] == History.Description(log, c))
            && BranchName !in f && BugsClosed !in f
  {
    var base := Rewritten(log, c, opts);
    var values := TargetValues(ui, opts);
    AddTargetsAt(base, HgReviewboard.TargetKeys, values, Summary);
    AddTargetsAt(base, HgReviewboard.TargetKeys, values, Field.Description);
    AddTargetsAt(base, HgReviewboard.TargetKeys, values, BranchName);
    AddTargetsAt(base, HgReviewboard.TargetKeys, values, BugsClosed);
  }

  /** target_groups and target_people are sent exactly when the option list joined with commas,
      else the configured value, is non-empty, and with that value. */
  lemma TargetFieldsFromOptionsOrConfig(ui: Ui, log: Log, c: int, opts: Options)
    requires Fields(ui, log, c, opts).Ok?
    ensures var f := Fields(ui, log, c, opts).value;
            && (TargetGroups in f <==> TargetValue(ui, opts.targetGroups, TargetGroups) != "")
            && (TargetGroups in f ==> f[TargetGroups] == TargetValue(ui, opts.targetGroups, TargetGroups))
            && (TargetPeople in f <==> TargetValue(ui, opts.targetPeople, TargetPeople) != "")
            && (TargetPeople in f ==> f[TargetPeople] == TargetValue(ui, opts.targetPeople, TargetPeople))
  {
    var base := Rewritten(log, c, opts);
    var values := TargetValues(ui, opts);
    AddTargetsAt(base, HgReviewboard.TargetKeys, values, TargetGroups);
    AddTargetsAt(base, HgReviewboard.TargetKeys, values, TargetPeople);
  }

  /** A list of people given on the command line, none containing a comma, is what the server
      reads back by splitting the field at commas. */
  lemma TargetPeopleRoundTrip(ui: Ui, log: Log, c: int, opts: Options)
    requires Fields(ui, log, c, opts).Ok?
    requires opts.targetPeople != [] && Join(opts.targetPeople, ',') != ""
    requires forall i :: 0 <= i < |opts.targetPeople| ==> ',' !in opts.targetPeople[i]
    ensures TargetPeople in Fields(ui, log, c, opts).value
    ensures Split(Fields(ui, log, c, opts).value[TargetPeople], ',') == opts.targetPeople
  {
    AddTargetsAt(Rewritten(log, c, opts), HgReviewboard.TargetKeys, TargetValues(ui, opts), TargetPeople);
    SplitJoin(opts.targetPeople, ',');
  }

  /** Everything this version settles before logging in, in the order it settles it. */
  datatype Prepared = Prepared(server: string, parent: int, rparent: Option<int>, target: int, fields: map<Field, string>)

  function Prepare(ui: Ui, repo: Repo, rev: string, opts: Options): (r: Result<Prepared>)
    ensures Config(ui, "server") == "" ==> r == Err(Abort(ServerMessage))
    ensures Config(ui, "server") != "" && ParentFor(repo, rev, opts).Err? ==> r == Err(ParentFor(repo, rev, opts).failure)
    ensures r.Ok? ==> && r.value.server == Config(ui, "server") != ""
                      && ParentFor(repo, rev, opts) == Ok(r.value.parent)
                      && RParentFor(ui, repo, rev, opts) == Ok(r.value.rparent)
                      && Lookup(repo, rev) == Ok(r.value.target)
                      && Fields(ui, repo.log, r.value.target, opts) == Ok(r.value.fields)
  {
    var server := Config(ui, "server");
    if server == "" then Err(Abort(ServerMessage))
    else
      var parent :- ParentFor(repo, rev, opts);
      var rparent :- RParentFor(ui, repo, rev, opts);
      var c :- Lookup(repo, rev);
      var fields :- Fields(ui, repo.log, c, opts);
      Ok(Prepared(server, parent, rparent, c, fields))
  }

  /** An unknown --parent is reported before a missing remote or an unknown --master. */
  lemma ParentErrorsFirst(ui: Ui, repo: Repo, rev: string, opts: Options)
    requires Config(ui, "server") != "" && opts.parent != "" && opts.parent !in repo.names
    ensures Prepare(ui, repo, rev, opts) == Err(UnknownRevision(opts.parent))
  {
  }

  /** What the repository choice inside `postreview` settles on, given the server's reply to the
      listing request and the answer typed at the prompt. A typed id is taken only when several
      repositories are listed and it is one of their ids; a number is the given --repoid or
      the only listed repository's id. */
  function RepositoryChoice(listing: Reply<seq<Repository>>, opts: Options, server: string, answer: string): (r: Result<RepoId>)
    ensures r.Ok? && r.value.StringId? ==>
              && opts.repoid == "" && listing.Answer? && |listing.value| > 1
              && r.value.s == answer && answer in ListedIds(listing.value, false)
    ensures r.Ok? && r.value.NumericId? ==>
              || (opts.repoid != "" && ParseInt(opts.repoid) == Some(r.value.n))
              || (opts.repoid == "" && listing.Answer? && |listing.value| == 1 && r.value.n == listing.value[0].id)
  {
    if opts.repoid != "" then HgReviewboard.GivenId(opts.repoid)
    else match listing
      case Refusal(message) => Err(Abort(message))
      case Answer(rs) =>
        if rs == [] then Err(Abort(NoRepositoriesMessage(server)))
        else if |rs| > 1 then (if answer in ListedIds(rs, false) then Ok(StringId(answer)) else Err(Abort(InvalidIdMessage(answer))))
        else Ok(NumericId(rs[0].id))
  }

  /** The repository choice inside `postreview`: `int()` of --repoid (no configured id in this
      version); else an empty listing aborts naming the server, several repositories need a
      typed id among all the listed ones, and a single repository is used without asking. */
  method ChooseRepository(client: Client, opts: Options, server: string, answer: string)
    returns (r: Result<RepoId>, calls: seq<Event>)
    ensures r == RepositoryChoice(client.repositories, opts, server, answer)
    ensures calls == Listed(opts)
    ensures r.Err? && opts.repoid == "" ==>
              || (client.repositories.Refusal? && r == Err(Abort(client.repositories.message)))
              || (client.repositories == Answer([]) && r == Err(Abort(NoRepositoriesMessage(server))))
              || (|client.repositories.value| > 1 && answer !in ListedIds(client.repositories.value, false)
                  && r == Err(Abort(InvalidIdMessage(answer))))
    ensures r.Err? && opts.repoid != "" ==> ParseInt(opts.repoid).None? && r == Err(Uncaught("ValueError"))
  {
    if opts.repoid != "" {
      var n := ParseInt(opts.repoid);
      if n.None? {
        return Err(Uncaught("ValueError")), [];
      }
      return Ok(NumericId(n.value)), [];
    }
    calls := [ListRepositories];
    if client.repositories.Refusal? {
      return Err(Abort(client.repositories.message)), calls;
    }
    var repositories := client.repositories.value;
    if repositories == [] {
      return Err(Abort(NoRepositoriesMessage(server))), calls;
    }
    var repoIds := CollectIds(repositories, false);
    if |repositories| > 1 {
      if answer !in repoIds {
        return Err(Abort(InvalidIdMessage(answer))), calls;
      }
      return Ok(StringId(answer)), calls;
    }
    return Ok(NumericId(repositories[0].id)), calls;
  }

  /** The listing request of the repository choice, made when no --repoid is given. */
  function Listed(opts: Options): seq<Event> {
    if opts.repoid == "" then [ListRepositories] else []
  }

  /** The server calls of a successful run: log in, then update (never published here), or list
      the repositories when no --repoid is given, create the request in the chosen repository
      and publish it under --publish. */
  function Calls(client: Client, opts: Options, server: string, answer: string, requestId: string): seq<Event> {
    if opts.existing != "" then [Login, UpdateRequest(opts.existing)]
    else [Login] + Listed(opts) + Creation(RepositoryChoice(client.repositories, opts, server, answer))
         + (if opts.publish then [Publish(requestId)] else [])
  }

  /** The first half of `postreview`, before the login: the server check, the parent and remote
      parent, the target revision and the fields, each step able to stop the run before any
      server call. */
  method Settle(ui: Ui, repo: Repo, rev: string, opts: Options) returns (r: Result<Prepared>)
    ensures r == Prepare(ui, repo, rev, opts)
  {
    var server := Config(ui, "server");
    if server == "" {
      return Err(Abort(ServerMessage));
    }
    var parent: int;
    if opts.parent != "" {
      var p := Lookup(repo, opts.parent);
      if p.Err? {
        return Err(p.failure);
      }
      parent := p.value;
    } else {
      var t := Lookup(repo, rev);
      if t.Err? {
        return Err(t.failure);
      }
      parent := FirstParent(repo.log, t.value);
    }
    var rparent: Option<int>;
    if opts.master != "" {
      var m := Lookup(repo, opts.master);
      if m.Err? {
        return Err(m.failure);
      }
      rparent := Some(m.value);
    } else if opts.outgoingrepo != "" || opts.outgoing {
      var found := RemoteParent(ui, repo, rev, if opts.outgoingrepo != "" then opts.outgoingrepo else "");
      if found.Err? {
        return Err(found.failure);
      }
      rparent := found.value;
    } else {
      rparent := None;
    }
    var ctx := Lookup(repo, rev);
    if ctx.Err? {
      return Err(ctx.failure);
    }
    var c := ctx.value;
    var fields: map<Field, string> := map[];
    if Rewrites(opts) {
      var summary := FirstLine(History.Description(repo.log, c));
      if summary.None? {
        return Err(Uncaught("IndexError"));
      }
      fields := fields[Summary := summary.value];
      fields := fields[Field.Description := History.Description(repo.log, c)];
    }
    fields := FillTargets(fields, HgReviewboard.TargetKeys, TargetValues(ui, opts));
    return Ok(Prepared(server, parent, rparent, c, fields));
  }

  /** The second half of `postreview`: log in, then update the existing request (without
      publishing) or choose a repository, create the request in it and publish it under
      --publish. */
  method Submit(server: string, opts: Options, client: Client, answer: string) returns (r: Result<string>, calls: seq<Event>)
    ensures |calls| > 0 && calls[0] == Login
    ensures client.login.Refusal? ==> r == Err(Abort(client.login.message)) && calls == [Login]
    ensures client.login.Answer? && opts.existing == "" && RepositoryChoice(client.repositories, opts, server, answer).Err? ==>
              r == Err(RepositoryChoice(client.repositories, opts, server, answer).failure) && calls == [Login] + Listed(opts)
    ensures r.Ok? && opts.existing == "" ==> RepositoryChoice(client.repositories, opts, server, answer).Ok?
    ensures r.Ok? ==> calls == Calls(client, opts, server, answer, r.value)
    ensures r.Ok? && opts.existing != "" ==> r.value == opts.existing
    ensures r.Ok? && opts.existing == "" ==> client.newRequest.Answer? && r.value == DecimalString(client.newRequest.value)
  {
    calls := [Login];
    if client.login.Refusal? {
      return Err(Abort(client.login.message)), calls;
    }
    if opts.existing != "" {
      calls := calls + [UpdateRequest(opts.existing)];
      if client.updateRequest.Refusal? {
        return Err(Abort(client.updateRequest.message)), calls;
      }
      return Ok(opts.existing), calls;
    }
    var repoId, listed := ChooseRepository(client, opts, server, answer);
    calls := calls + listed;
    if repoId.Err? {
      return Err(repoId.failure), calls;
    }
    calls := calls + [NewRequest(repoId.value)];
    if client.newRequest.Refusal? {
      return Err(Abort(client.newRequest.message)), calls;
    }
    var requestId := DecimalString(client.newRequest.value);
    if opts.publish {
      calls := calls + [Publish(requestId)];
      if client.publish.Refusal? {
        return Err(Abort(client.publish.message)), calls;
      }
    }
    return Ok(requestId), calls;
  }

  /** One run of `hg postreview` in this version. Every error before the login leaves the server
      untouched. */
  method PostReview(ui: Ui, repo: Repo, rev: string, opts: Options, client: Client,
                    diff: (int, int) -> string, answer: string)
    returns (r: Result<Review>, calls: seq<Event>)
    ensures Prepare(ui, repo, rev, opts).Err? ==> r == Err(Prepare(ui, repo, rev, opts).failure) && calls == []
    ensures Prepare(ui, repo, rev, opts).Ok? ==> |calls| > 0 && calls[0] == Login
    ensures Prepare(ui, repo, rev, opts).Ok? && client.login.Refusal? ==> r == Err(Abort(client.login.message)) && calls == [Login]
    ensures r.Ok? ==>
              var p := Prepare(ui, repo, rev, opts).value;
              && r.value == Review(p.target, p.parent, p.rparent, r.value.diff, r.value.parentDiff, p.fields, r.value.requestId, r.value.url)
              && (r.value.diff, r.value.parentDiff) == HgReviewboard.CreateReviewData(diff, p.target, p.parent, p.rparent)
              && r.value.url == RequestUrl(p.server, r.value.requestId)
              && calls == Calls(client, opts, p.server, answer, r.value.requestId)
    ensures r.Ok? && opts.existing != "" ==> r.value.requestId == opts.existing
    ensures r.Ok? && opts.existing == "" ==> client.newRequest.Answer? && r.value.requestId == DecimalString(client.newRequest.value)
  {
    var prepared := Settle(ui, repo, rev, opts);
    if prepared.Err? {
      return Err(prepared.failure), [];
    }
    var p := prepared.value;
    var (d, parentdiff) := HgReviewboard.CreateReviewData(diff, p.target, p.parent, p.rparent);
    var requestId;
    requestId, calls := Submit(p.server, opts, client, answer);
    if requestId.Err? {
      return Err(requestId.failure), calls;
    }
    var url := RequestUrl(p.server, requestId.value);
    return Ok(Review(p.target, p.parent, p.rparent, d, parentdiff, p.fields, requestId.value, url)), calls;
  }
}
