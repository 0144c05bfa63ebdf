/** Vocabulary shared by the versions of the `postreview` command: the parent-option check's
    flag arithmetic, the changeset listing, and the repository-id loops. */
module Command {
  import opened Base
  import opened Text
  import opened History
  import opened ReviewBoard

  const CombineMessage: string := "you cannot combine the --parent, --outgoingchanges and --branch options"

  function InvalidIdMessage(answer: string): string {
    "invalid repository ID: " + answer
  }

  /** Python's `^` on booleans. */
  function Xor(a: bool, b: bool): bool {
    a != b
  }

  /** How many of the three parent-selection flags are set. */
  function FlagCount(usep: bool, useg: bool, useb: bool): (n: nat)
    ensures n <= 3
    ensures n == 0 <==> !usep && !useg && !useb
  {
    (if usep then 1 else 0) + (if useg then 1 else 0) + (if useb then 1 else 0)
  }

  /** The combination test of check_parent_options: some flag set, and their three-way XOR false. */
  predicate Conflicting(usep: bool, useg: bool, useb: bool) {
    (usep || useg || useb) && !Xor(Xor(usep, useg), useb)
  }

  /** The test rejects exactly two flags: the XOR of three set flags is true, so all three pass. */
  lemma ConflictingIffExactlyTwo(usep: bool, useg: bool, useb: bool)
    ensures Conflicting(usep, useg, useb) <==> FlagCount(usep, useg, useb) == 2
  {
  }

  // ---- the changeset listing -------------------------------------------------------------------

  /** `''.join([entry(ctx) for ctx in contexts])`. */
  function Entries(cs: seq<int>, entry: int -> string): (r: string)
    ensures cs == [] ==> r == ""
  {
    if cs == [] then "" else entry(cs[0]) + Entries(cs[1..], entry)
  }

  /** Entries come out in list order: listing one more context appends its entry. */
  lemma {:induction false} EntriesAppend(cs: seq<int>, x: int, entry: int -> string)
    ensures Entries(cs + [x], entry) == Entries(cs, entry) + entry(x)
    decreases |cs|
  {
    if cs == [] {
      assert cs + [x] == [x];
    } else {
      assert (cs + [x])[1..] == cs[1..] + [x];
      EntriesAppend(cs[1..], x, entry);
    }
  }

  /** Two contexts list as the entry of the first, then that of the second. */
  lemma EntriesPair(a: int, b: int, entry: int -> string)
    ensures Entries([a, b], entry) == entry(a) + entry(b)
  {
    assert [a, b][1..] == [b];
    assert Entries([b], entry) == entry(b) + Entries([], entry);
  }

  /** `"review of branch: %s\n\n"` when reviewing a branch, then `'changesets:\n'` and the entries. */
  function Listing(branch: Option<string>, entries: string): (r: string)
    ensures branch.None? ==> StartsWith(r, "changesets:\n") && r[12..] == entries
    ensures branch.Some? ==>
              var header := "review of branch: " + branch.value + "\n\n";
              StartsWith(r, header) && r[|header|..] == "changesets:\n" + entries
  {
    var header := "changesets:\n" + entries;
    match branch
    case None => header
    case Some(b) => "review of branch: " + b + "\n\n" + header
  }

  // ---- the target fields ------------------------------------------------------------------------

  /** `values[k]`, or "" for a key without a value. */
  function ValueOf(values: map<Field, string>, k: Field): string {
    if k in values then values[k] else ""
  }

  /** `fields` after the loop that sets each of `keys` whose value is non-empty. */
  function AddTargets(base: map<Field, string>, keys: seq<Field>, values: map<Field, string>): map<Field, string> {
    if keys == [] then base
    else
      var n := |keys| - 1;
      var m := AddTargets(base, keys[..n], values);
      var v := ValueOf(values, keys[n]);
      if v != "" then m[keys[n] := v] else m
  }

  /** A key is set after the loop exactly when it was set before or it is one of `keys` with a
      non-empty value, which it then holds; other keys keep their value. */
  lemma {:induction false} AddTargetsAt(base: map<Field, string>, keys: seq<Field>, values: map<Field, string>, k: Field)
    ensures var m := AddTargets(base, keys, values);
            && (k in m <==> k in base || (k in keys && ValueOf(values, k) != ""))
            && (k in keys && ValueOf(values, k) != "" ==> m[k] == ValueOf(values, k))
            && (!(k in keys && ValueOf(values, k) != "") && k in base ==> m[k] == base[k])
    decreases |keys|
  {
    if keys != [] {
      var n := |keys| - 1;
      assert keys == keys[..n] + [keys[n]];
      AddTargetsAt(base, keys[..n], values, k);
    }
  }

  lemma AddTargetsStep(base: map<Field, string>, keys: seq<Field>, values: map<Field, string>, i: int)
    requires 0 <= i < |keys|
    ensures AddTargets(base, keys[..i + 1], values) ==
              var m := AddTargets(base, keys[..i], values);
              if ValueOf(values, keys[i]) != "" then m[keys[i] := ValueOf(values, keys[i])] else m
  {
    assert keys[..i + 1][..i] == keys[..i];
  }

  /** The loop of `createfields` over the target fields: a field is set only when its value is
      non-empty. */
  method FillTargets(base: map<Field, string>, keys: seq<Field>, values: map<Field, string>) returns (fields: map<Field, string>)
    ensures fields == AddTargets(base, keys, values)
  {
    fields := base;
    for i := 0 to |keys|
      invariant fields == AddTargets(base, keys[..i], values)
    {
      AddTargetsStep(base, keys, values, i);
      var field := keys[i];
      var value := ValueOf(values, field);
      if value != "" {
        fields := fields[field := value];
      }
    }
    assert keys[..|keys|] == keys;
  }

  // ---- the repository-id loops -----------------------------------------------------------------

  predicate IsMercurial(r: Repository) {
    r.tool == "Mercurial"
  }

  /** Id of the last Mercurial repository of `rs` whose lower-cased path is `remotepath`. */
  function LastMatch(rs: seq<Repository>, remotepath: string): (m: Option<int>)
    ensures m.None? <==> forall j :: 0 <= j < |rs| ==> !(IsMercurial(rs[j]) && Lower(rs[j].path) == remotepath)
    ensures m.Some? ==> exists j :: 0 <= j < |rs| && IsMercurial(rs[j]) && Lower(rs[j].path) == remotepath
                          && rs[j].id == m.value
                          && forall k :: j < k < |rs| ==> !(IsMercurial(rs[k]) && Lower(rs[k].path) == remotepath)
  {
    if rs == [] then None
    else
      var n := |rs| - 1;
      var last := rs[n];
      if IsMercurial(last) && Lower(last.path) == remotepath then Some(last.id)
      else
        var m := LastMatch(rs[..n], remotepath);
        assert forall j :: 0 <= j < n ==> rs[..n][j] == rs[j];
        m
  }

  /** The loop that keeps overwriting `repo_id` with each matching repository's id. */
  method MatchRepository(rs: seq<Repository>, remotepath: string) returns (m: Option<int>)
    ensures m == LastMatch(rs, remotepath)
  {
    m := None;
    for i := 0 to |rs|
      invariant m == LastMatch(rs[..i], remotepath)
    {
      assert rs[..i + 1][..i] == rs[..i];
      var r := rs[i];
      if !IsMercurial(r) {
        continue;
      }
      if Lower(r.path) == remotepath {
        m := Some(r.id);
      }
    }
    assert rs[..|rs|] == rs;
  }

  /** `str(r.id)` of every listed repository (only the Mercurial ones when `onlyMercurial`). */
  function ListedIds(rs: seq<Repository>, onlyMercurial: bool): set<string> {
    set r | r in rs && (!onlyMercurial || IsMercurial(r)) :: DecimalString(r.id)
  }

  /** The listed ids depend only on which repositories are listed, not on their order. */
  lemma ListedIdsOrderFree(rs: seq<Repository>, ts: seq<Repository>, onlyMercurial: bool)
    requires multiset(rs) == multiset(ts)
    ensures ListedIds(rs, onlyMercurial) == ListedIds(ts, onlyMercurial)
  {
    assert forall r :: r in rs <==> r in ts by {
      forall r ensures r in rs <==> r in ts {
        assert r in rs <==> r in multiset(rs);
        assert r in ts <==> r in multiset(ts);
      }
    }
  }

  /** The loop that fills the `repo_ids` set while listing the repositories. */
  method CollectIds(rs: seq<Repository>, onlyMercurial: bool) returns (ids: set<string>)
    ensures ids == ListedIds(rs, onlyMercurial)
  {
    ids := {};
    for i := 0 to |rs|
      invariant ids == ListedIds(rs[..i], onlyMercurial)
    {
      assert rs[..i + 1][..i] == rs[..i];
      var r := rs[i];
      if onlyMercurial && !IsMercurial(r) {
        continue;
      }
      ids := ids + {DecimalString(r.id)};
    }
    assert rs[..|rs|] == rs;
  }
}
