/** The repository history as the Mercurial backend presents it to the extension: revisions
    numbered from 0, each with up to two parents of smaller number, a branch label, a
    description and a short hash. Revision -1 is Mercurial's null revision. */
module History {
  import opened Base

  /** The null revision: parent of every root, its own first parent, and falsy as a changectx. */
  const Null: int := -1
  /** `str()` of the null changectx. */
  const NullHash: string := "000000000000"
  /** The branch label of the null revision. */
  const DefaultBranch: string := "default"

  /** One revision: first and second parent (Null when absent), branch label, description and
      the short hash that `str(ctx)` prints. */
  datatype Changeset = Changeset(first: int, second: int, branch: string, description: string, hash: string)

  /** Parents are Null or earlier revisions of the log; a revision without a first parent has no
      second parent either. */
  predicate WellFormedLog(log: map<int, Changeset>) {
    forall r :: r in log ==>
      && 0 <= r
      && Null <= log[r].first < r
      && Null <= log[r].second < r
      && (log[r].first == Null || log[r].first in log)
      && (log[r].second == Null || log[r].second in log)
      && (log[r].first == Null ==> log[r].second == Null)
  }

  type Log = log: map<int, Changeset> | WellFormedLog(log) witness map[]

  /** What the backend answers for one repository: its history; what `repo[spec]` resolves each
      specifier to (hashes, numbers, tags, '.', 'tip', ...); and for each remote location it can
      open, the revisions missing there, in the backend's enumeration order. */
  datatype Backend = Backend(log: Log, names: map<string, int>, outgoing: map<string, seq<int>>)

  /** Specifiers resolve to revisions of the log, and outgoing lists hold revisions of the log. */
  predicate WellFormedBackend(b: Backend) {
    && (forall spec :: spec in b.names ==> IsRev(b.log, b.names[spec]))
    && (forall path :: path in b.outgoing ==> forall j :: 0 <= j < |b.outgoing[path]| ==> b.outgoing[path][j] in b.log)
  }

  type Repo = b: Backend | WellFormedBackend(b) witness Backend(map[], map[], map[])

  predicate IsRev(log: Log, r: int) {
    r == Null || r in log
  }

  /** The truth value of a changectx: every revision except the null one is truthy. */
  predicate Truthy(r: int) {
    r != Null
  }

  /** `ctx.parents()[0]`; the null revision's first parent is the null revision. */
  function FirstParent(log: Log, r: int): (p: int)
    ensures IsRev(log, p)
    ensures r in log ==> p < r
  {
    if r in log then log[r].first else Null
  }

  function Branch(log: Log, r: int): string {
    if r in log then log[r].branch else DefaultBranch
  }

  function Description(log: Log, r: int): string {
    if r in log then log[r].description else ""
  }

  function Hash(log: Log, r: int): string {
    if r in log then log[r].hash else NullHash
  }

  /** `repo[spec]`. */
  function Lookup(repo: Repo, spec: string): (r: Result<int>)
    ensures r.Ok? <==> spec in repo.names
    ensures r.Ok? ==> IsRev(repo.log, r.value)
    ensures r.Err? ==> r.failure == UnknownRevision(spec)
  {
    if spec in repo.names then Ok(repo.names[spec]) else Err(UnknownRevision(spec))
  }

  /** `a` is `c` or reachable from `c` through parents (first or second). */
  predicate IsAncestor(log: Log, a: int, c: int)
    decreases if c in log then c + 1 else 0
  {
    a == c || (c in log && (IsAncestor(log, a, log[c].first) || IsAncestor(log, a, log[c].second)))
  }

  lemma {:induction false} AncestorNotAfter(log: Log, a: int, c: int)
    requires IsAncestor(log, a, c)
    ensures a <= c
    decreases if c in log then c + 1 else 0
  {
    if a != c {
      if IsAncestor(log, a, log[c].first) {
        AncestorNotAfter(log, a, log[c].first);
      } else {
        AncestorNotAfter(log, a, log[c].second);
      }
    }
  }

  lemma {:induction false} AncestorTransitive(log: Log, a: int, b: int, c: int)
    requires IsAncestor(log, a, b) && IsAncestor(log, b, c)
    ensures IsAncestor(log, a, c)
    decreases if c in log then c + 1 else 0
  {
    if b != c {
      if IsAncestor(log, b, log[c].first) {
        AncestorTransitive(log, a, b, log[c].first);
      } else {
        AncestorTransitive(log, a, b, log[c].second);
      }
    }
  }

  /** The null revision is an ancestor of every revision. */
  lemma {:induction false} NullIsAncestor(log: Log, c: int)
    requires IsRev(log, c)
    ensures IsAncestor(log, Null, c)
    decreases c + 1
  {
    if c != Null {
      NullIsAncestor(log, log[c].first);
    }
  }

  predicate Increasing(s: seq<int>) {
    forall j, k :: 0 <= j < k < |s| ==> s[j] < s[k]
  }

  /** Revisions x with i <= x <= c that descend from p and lead to c, in ascending order. */
  function Scan(log: Log, p: int, c: int, i: int): (s: seq<int>)
    ensures forall x :: x in s <==> i <= x <= c && IsAncestor(log, p, x) && IsAncestor(log, x, c)
    ensures Increasing(s)
    decreases c + 1 - i
  {
    if i > c then []
    else
      var rest := Scan(log, p, c, i + 1);
      assert forall k :: 0 <= k < |rest| ==> i < rest[k] by {
        forall k | 0 <= k < |rest| ensures i < rest[k] { assert rest[k] in rest; }
      }
      (if IsAncestor(log, p, i) && IsAncestor(log, i, c) then [i] else []) + rest
  }

  /** `repo.changelog.nodesbetween([p], [c])[0]`: the revisions that descend from p and are
      ancestors of c, both ends included, in ascending (topological) order. The null revision
      itself is never listed. */
  function Between(log: Log, p: int, c: int): (s: seq<int>)
    ensures forall x :: x in s <==> 0 <= x && p <= x <= c && IsAncestor(log, p, x) && IsAncestor(log, x, c)
    ensures Increasing(s)
  {
    Scan(log, p, c, if p < 0 then 0 else p)
  }

  /** `nodesbetween([o], [c])` is non-empty exactly when o is c or one of its ancestors. */
  lemma BetweenNonEmptyIffAncestor(log: Log, o: int, c: int)
    requires o in log
    ensures Between(log, o, c) != [] <==> IsAncestor(log, o, c)
  {
    var s := Between(log, o, c);
    if IsAncestor(log, o, c) {
      AncestorNotAfter(log, o, c);
      assert o in s;
    }
    if s != [] {
      assert s[0] in s;
      AncestorTransitive(log, o, s[0], c);
    }
  }

  // ---- remoteparent --------------------------------------------------------------------------

  /** Index of the first outgoing revision o with a non-empty `nodesbetween([o], [c])`. */
  function FirstReaching(log: Log, out: seq<int>, c: int): (k: nat)
    ensures k <= |out|
    ensures forall j :: 0 <= j < k ==> Between(log, out[j], c) == []
    ensures k < |out| ==> Between(log, out[k], c) != []
  {
    if out == [] || Between(log, out[0], c) != [] then 0 else 1 + FirstReaching(log, out[1..], c)
  }

  /** The answer of `remoteparent` once the outgoing list is known. */
  function RemoteParentOf(log: Log, out: seq<int>, c: int): Option<int> {
    var k := FirstReaching(log, out, c);
    if k < |out| then Some(FirstParent(log, out[k])) else None
  }

  /** `remoteparent` answers the first parent of the first outgoing revision that is c or one of
      its ancestors, and None exactly when no outgoing revision is. */
  lemma RemoteParentIsFirstOutgoingAncestor(log: Log, out: seq<int>, c: int)
    requires forall j :: 0 <= j < |out| ==> out[j] in log
    ensures RemoteParentOf(log, out, c).None? <==> forall j :: 0 <= j < |out| ==> !IsAncestor(log, out[j], c)
    ensures RemoteParentOf(log, out, c).Some? ==>
              var k := FirstReaching(log, out, c);
              && k < |out|
              && IsAncestor(log, out[k], c)
              && RemoteParentOf(log, out, c).value == FirstParent(log, out[k])
              && forall j :: 0 <= j < k ==> !IsAncestor(log, out[j], c)
  {
    forall j | 0 <= j < |out| ensures Between(log, out[j], c) != [] <==> IsAncestor(log, out[j], c) {
      BetweenNonEmptyIffAncestor(log, out[j], c);
    }
  }

  /** `remoteparent` once the remote location is expanded to `path`: the backend cannot open a
      location it has no outgoing list for. */
  function RemoteParentAt(repo: Repo, path: string, c: int): (r: Result<Option<int>>)
    ensures r.Err? <==> path !in repo.outgoing
    ensures r.Err? ==> r.failure == RemoteNotFound(path)
    ensures r.Ok? ==> r.value == RemoteParentOf(repo.log, repo.outgoing[path], c)
  {
    if path in repo.outgoing then Ok(RemoteParentOf(repo.log, repo.outgoing[path], c)) else Err(RemoteNotFound(path))
  }

  /** The loop of `remoteparent`: walk the outgoing revisions and return the first parent of the
      first one for which `nodesbetween([o], [c])` is non-empty; fall off the loop with None. */
  method FirstOutgoingParent(log: Log, out: seq<int>, c: int) returns (r: Option<int>)
    ensures r == RemoteParentOf(log, out, c)
  {
    for i := 0 to |out|
      invariant forall j :: 0 <= j < i ==> Between(log, out[j], c) == []
    {
      var o := out[i];
      var a := Between(log, o, c);
      if a != [] {
        return Some(FirstParent(log, o));
      }
    }
    return None;
  }

  // ---- find_branch_parent ----------------------------------------------------------------------

  /** c, its first parent, that one's first parent, ... down to a root (the null revision excluded). */
  function Chain(log: Log, c: int): (ch: seq<int>)
    ensures c in log <==> ch != []
    ensures forall i :: 0 <= i < |ch| ==> ch[i] in log
    ensures ch != [] ==> ch[0] == c && FirstParent(log, ch[|ch| - 1]) == Null
    ensures forall i :: 0 < i < |ch| ==> ch[i] == FirstParent(log, ch[i - 1])
    decreases if c in log then c + 1 else 0
  {
    if c in log then [c] + Chain(log, log[c].first) else []
  }

  /** Only the last revision of a chain, its root, has the null revision as first parent. */
  lemma ChainRootIsLast(log: Log, c: int)
    ensures forall i :: 0 <= i < |Chain(log, c)| - 1 ==> FirstParent(log, Chain(log, c)[i]) != Null
  {
    var ch := Chain(log, c);
    forall i | 0 <= i < |ch| - 1 ensures FirstParent(log, ch[i]) != Null {
      assert ch[i + 1] in log;
    }
  }

  /** Every revision of the first-parent chain of c is an ancestor of c. */
  lemma {:induction false} ChainAncestors(log: Log, c: int)
    ensures forall i :: 0 <= i < |Chain(log, c)| ==> IsAncestor(log, Chain(log, c)[i], c)
    decreases if c in log then c + 1 else 0
  {
    if c in log {
      var ch, rest := Chain(log, c), Chain(log, log[c].first);
      ChainAncestors(log, log[c].first);
      forall i | 0 <= i < |ch| ensures IsAncestor(log, ch[i], c) {
        if i > 0 {
          assert ch[i] == rest[i - 1];
          assert IsAncestor(log, log[c].first, c);
          AncestorTransitive(log, ch[i], log[c].first, c);
        }
      }
    }
  }

  /** Index of the first revision of `ch` whose branch is not b, or `|ch|`. */
  function FirstOffBranch(log: Log, ch: seq<int>, b: string): (k: nat)
    ensures k <= |ch|
    ensures forall i :: 0 <= i < k ==> Branch(log, ch[i]) == b
    ensures k < |ch| ==> Branch(log, ch[k]) != b
  {
    if ch == [] || Branch(log, ch[0]) != b then 0 else 1 + FirstOffBranch(log, ch[1..], b)
  }

  /** Where the walk of find_branch_parent stops: step to the first parent while there is one
      and the current revision is on branch b. */
  function WalkBack(log: Log, cur: int, b: string): int
    decreases if cur in log then cur + 1 else 0
  {
    if Truthy(FirstParent(log, cur)) && Branch(log, cur) == b then WalkBack(log, FirstParent(log, cur), b) else cur
  }

  /** The walk stops at the first revision of the chain that is off branch b, or at the root
      when the whole chain is on it (at cur itself for the null revision). */
  lemma {:induction false} WalkBackStopsOffBranch(log: Log, cur: int, b: string)
    ensures var ch := Chain(log, cur);
            var k := FirstOffBranch(log, ch, b);
            WalkBack(log, cur, b) == if ch == [] then cur else if k < |ch| then ch[k] else ch[|ch| - 1]
    decreases if cur in log then cur + 1 else 0
  {
    var ch := Chain(log, cur);
    if cur in log {
      var p := FirstParent(log, cur);
      var rest := Chain(log, p);
      assert ch == [cur] + rest;
      if Truthy(p) && Branch(log, cur) == b {
        WalkBackStopsOffBranch(log, p, b);
        assert ch[1..] == rest;
        assert FirstOffBranch(log, ch, b) == 1 + FirstOffBranch(log, rest, b);
      }
    }
  }

  // ---- find_contexts ---------------------------------------------------------------------------

  predicate Kept(log: Log, x: int, p: int, c: int, onlyBranch: bool) {
    x != p && (!onlyBranch || Branch(log, x) == Branch(log, c))
  }

  /** The revisions of `nodes` that find_contexts appends, in the order it appends them. */
  function Keep(log: Log, nodes: seq<int>, p: int, c: int, onlyBranch: bool): (s: seq<int>)
    requires Increasing(nodes)
    ensures forall x :: x in s <==> x in nodes && Kept(log, x, p, c, onlyBranch)
    ensures Increasing(s)
    decreases |nodes|
  {
    if nodes == [] then []
    else
      var n := |nodes|;
      var last := nodes[n - 1];
      var rest := Keep(log, nodes[..n - 1], p, c, onlyBranch);
      assert nodes == nodes[..n - 1] + [last];
      assert forall x :: x in rest ==> x < last by {
        forall x | x in rest ensures x < last {
          var j :| 0 <= j < n - 1 && nodes[j] == x;
        }
      }
      assert forall k :: 0 <= k < |rest| ==> rest[k] < last by {
        forall k | 0 <= k < |rest| ensures rest[k] < last { assert rest[k] in rest; }
      }
      if Kept(log, last, p, c, onlyBranch) then rest + [last] else rest
  }

  /** One step of the find_contexts loop: the prefix one longer keeps what the shorter one kept,
      plus the next revision when it is kept. */
  lemma KeepStep(log: Log, nodes: seq<int>, i: int, p: int, c: int, onlyBranch: bool)
    requires Increasing(nodes) && 0 <= i < |nodes|
    ensures Increasing(nodes[..i]) && Increasing(nodes[..i + 1])
    ensures Keep(log, nodes[..i + 1], p, c, onlyBranch) ==
              Keep(log, nodes[..i], p, c, onlyBranch) + (if Kept(log, nodes[i], p, c, onlyBranch) then [nodes[i]] else [])
  {
    assert nodes[..i + 1][..i] == nodes[..i];
  }

  /** `list.reverse()`. */
  function Reverse(s: seq<int>): (r: seq<int>)
    ensures |r| == |s|
    ensures forall i :: 0 <= i < |s| ==> r[i] == s[|s| - 1 - i]
    ensures forall x :: x in r <==> x in s
  {
    if s == [] then [] else
      assert s == [s[0]] + s[1..];
      Reverse(s[1..]) + [s[0]]
  }

  /** What find_contexts returns: the revisions strictly after p up to and including c on the
      ancestry path between them, without p itself, only those on c's branch when `onlyBranch`,
      newest first. */
  function Collected(log: Log, p: int, c: int, onlyBranch: bool): (r: seq<int>)
    ensures forall x :: x in r <==>
              && 0 <= x && p <= x <= c && x != p
              && IsAncestor(log, p, x) && IsAncestor(log, x, c)
              && (!onlyBranch || Branch(log, x) == Branch(log, c))
    ensures forall j, k :: 0 <= j < k < |r| ==> r[j] > r[k]
  {
    Reverse(Keep(log, Between(log, p, c), p, c, onlyBranch))
  }
}
