/** What the extension exchanges with the Review Board server. The HTTP client is not modelled:
    each call's outcome is a given reply. */
module ReviewBoard {
  import opened Base
  import opened Text

  /** One entry of `reviewboard.repositories()`. */
  datatype Repository = Repository(id: int, name: string, tool: string, path: string)

  /** The server's replies to the calls one invocation may make: logging in (or creating the
      client), listing repositories, creating a request (the id it assigns), updating a request,
      publishing. */
  datatype Client = Client(
    login: Reply<()>,
    repositories: Reply<seq<Repository>>,
    newRequest: Reply<int>,
    updateRequest: Reply<()>,
    publish: Reply<()>)

  /** The review-request fields the extension sets, by the name the server knows them by. */
  datatype Field = Summary | Description | BranchName | TargetGroups | TargetPeople | BugsClosed {
    function Name(): string {
      match this
      case Summary => "summary"
      case Description => "description"
      case BranchName => "branch"
      case TargetGroups => "target_groups"
      case TargetPeople => "target_people"
      case BugsClosed => "bugs_closed"
    }
  }

  /** The repository id handed to `new_request`: a number, or the string typed at the prompt or
      given as an option. */
  datatype RepoId = NumericId(n: int) | StringId(s: string)

  /** The calls made to the server, in the order made; a new request names its repository. */
  datatype Event = Login | ListRepositories | NewRequest(repo: RepoId) | UpdateRequest(id: string) | Publish(id: string)

  /** The creation call that follows a repository choice: a request in the chosen repository,
      and no call when the choice failed. */
  function Creation(choice: Result<RepoId>): (r: seq<Event>)
    ensures choice.Ok? <==> r != []
    ensures choice.Ok? ==> r == [NewRequest(choice.value)]
  {
    if choice.Ok? then [NewRequest(choice.value)] else []
  }

  /** What a successful invocation produced: the reviewed revision, the diff base and remote
      parent, both diffs, the fields sent, the request id and the URL reported to the user. */
  datatype Review = Review(
    target: int,
    parent: int,
    rparent: Option<int>,
    diff: string,
    parentDiff: string,
    fields: map<Field, string>,
    requestId: string,
    url: string)

  // ---- sorted(repositories, key=name, cmp=case-insensitive) ------------------------------------

  /** Python 2's `cmp(a, b) <= 0` on strings: lexicographic by character, a prefix first. */
  predicate LexLe(a: string, b: string) {
    a == [] || (b != [] && (a[0] < b[0] || (a[0] == b[0] && LexLe(a[1..], b[1..]))))
  }

  lemma {:induction false} LexLeTotal(a: string, b: string)
    ensures LexLe(a, b) || LexLe(b, a)
  {
    if a != [] && b != [] && a[0] == b[0] {
      LexLeTotal(a[1..], b[1..]);
    }
  }

  function NameKey(r: Repository): string {
    Lower(r.name)
  }

  predicate SortedByName(s: seq<Repository>) {
    forall i :: 0 < i < |s| ==> LexLe(NameKey(s[i - 1]), NameKey(s[i]))
  }

  /** Puts x in front of the first entry whose name is not smaller, so that x, which came
      first in the input, stays ahead of entries with an equal name. */
  function Insert(x: Repository, s: seq<Repository>): (r: seq<Repository>)
    requires SortedByName(s)
    ensures SortedByName(r)
    ensures multiset(r) == multiset(s) + multiset{x}
    ensures |r| == |s| + 1
    ensures r[0] == x || (s != [] && r[0] == s[0])
  {
    if s == [] || LexLe(NameKey(x), NameKey(s[0])) then [x] + s
    else
      LexLeTotal(NameKey(x), NameKey(s[0]));
      assert s == [s[0]] + s[1..];
      [s[0]] + Insert(x, s[1..])
  }

  /** `sorted(repositories, key=name, cmp=lambda x, y: cmp(x.lower(), y.lower()))`, a stable
      sort by lower-cased name. */
  function SortByName(s: seq<Repository>): (r: seq<Repository>)
    ensures SortedByName(r)
    ensures multiset(r) == multiset(s)
    ensures |r| == |s|
  {
    if s == [] then []
    else
      assert s == [s[0]] + s[1..];
      Insert(s[0], SortByName(s[1..]))
  }

  // ---- the request URL -------------------------------------------------------------------------

  /** `'%s/%s/%s/' % (server, "r", id)`, with "http://" put in front when it does not already
      start with "http". */
  function RequestUrl(server: string, id: string): (r: string)
    ensures StartsWith(r, "http")
    ensures StartsWith(server, "http") ==> r == server + "/r/" + id + "/"
    ensures !StartsWith(server, "http") ==> r == "http://" + server + "/r/" + id + "/"
  {
    var url := server + "/r/" + id + "/";
    assert StartsWith(url, "http") <==> StartsWith(server, "http") by {
      if |server| >= 4 {
        assert url[..4] == server[..4];
      } else {
        assert url[|server|] == '/';
      }
    }
    if StartsWith(url, "http") then url else "http://" + url
  }
}
