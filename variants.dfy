/** How the three versions of the extension differ where they decide the same thing, and the
    concrete situations their tests describe. */
module Variants {
  import opened Base
  import opened Text
  import opened History
  import opened Command
  import Postreview
  import HgReviewboard
  import LegacyPostreview

  /** The options of the newest version as the 3.1.0 version reads them. */
  function Older(o: Postreview.Options): HgReviewboard.Options {
    HgReviewboard.Options(o.outgoing, o.outgoingrepo, o.repoid, o.master, o.existing, o.update, o.publish,
                          o.parent, o.outgoingchanges, o.branch, o.interactive, o.targetPeople, o.targetGroups)
  }

  /** The newest check rejects what the older one rejects, and in addition exactly -g without
      -o or -O; in both, all three of --parent, -g and --branch together pass the combination test. */
  lemma ParentOptionChecks(o: Postreview.Options)
    ensures Postreview.CheckParentOptions(o).Err? <==>
              HgReviewboard.CheckParentOptions(Older(o)).Err? || (o.outgoingchanges && !o.outgoing && o.outgoingrepo == "")
    ensures o.parent != "" && o.outgoingchanges && o.branch ==>
              HgReviewboard.CheckParentOptions(Older(o)).Ok? && (Postreview.CheckParentOptions(o).Ok? <==> o.outgoing || o.outgoingrepo != "")
  {
  }

  /** The two branch walks agree except when c's whole first-parent chain is on its branch: the
      newest version then answers the null revision, the older one the root of the chain. */
  lemma BranchParents(log: Log, c: int)
    requires c in log
    ensures var ch := Chain(log, c);
            var whole := forall i :: 0 <= i < |ch| ==> Branch(log, ch[i]) == Branch(log, c);
            && (!whole ==> Postreview.BranchParent(log, c) == HgReviewboard.BranchParent(log, c))
            && (whole ==> Postreview.BranchParent(log, c) == Null
                          && HgReviewboard.BranchParent(log, c) == ch[|ch| - 1]
                          && HgReviewboard.BranchParent(log, c) != Null
                          && FirstParent(log, HgReviewboard.BranchParent(log, c)) == Null)
  {
    Postreview.BranchParentIsFirstOffBranch(log, c);
    HgReviewboard.BranchParentIsFirstOffBranchOrRoot(log, c);
    var ch := Chain(log, c);
    var k := FirstOffBranch(log, ch, Branch(log, c));
    if k < |ch| {
      assert !(forall i :: 0 <= i < |ch| ==> Branch(log, ch[i]) == Branch(log, c));
    }
  }

  /** The newest version tests `rparent != None`, the older ones the truth of the context: they
      disagree about a parent diff exactly when the remote parent is the null revision and the
      parent is not. */
  lemma ParentDiffConditions(rparent: Option<int>, parent: int)
    ensures (Postreview.NeedsParentDiff(rparent, parent) != HgReviewboard.NeedsParentDiff(rparent, parent))
            <==> rparent == Some(Null) && parent != Null
  {
  }

  /** The same comparison on the diffs themselves. */
  lemma ParentDiffs(diff: (int, int) -> string, c: int, parent: int, rparent: Option<int>)
    requires rparent != Some(Null) || parent == Null
    ensures Postreview.CreateReviewData(diff, c, parent, rparent) == HgReviewboard.CreateReviewData(diff, c, parent, rparent)
  {
    ParentDiffConditions(rparent, parent);
  }

  /** Without --parent, the oldest version's diff base is what the 3.1.0 version picks with none
      of --parent, -g and --branch. */
  lemma LegacyParentIsDefault(repo: Repo, rev: string, o: LegacyPostreview.Options, rparent: Option<int>)
    requires o.parent == "" && Lookup(repo, rev).Ok?
    ensures LegacyPostreview.ParentFor(repo, rev, o).Ok?
    ensures var c := Lookup(repo, rev).value;
            var middle := HgReviewboard.Options(o.outgoing, o.outgoingrepo, o.repoid, o.master, o.existing, o.update,
                                                o.publish, "", false, false, false, "", "");
            HgReviewboard.FindParent(repo, c, rparent, middle) == Ok(Some(LegacyPostreview.ParentFor(repo, rev, o).value))
  {
  }

  // ---- the repository of tests/repos/two_revs ----------------------------------------------------

  /** Two revisions on the default branch, described "0" and "1"; "000000" names the null revision. */
  predicate TwoRevs(log: Log) {
    && log.Keys == {0, 1}
    && log[0] == Changeset(Null, Null, DefaultBranch, "0", "a8ea53640b24")
    && log[1] == Changeset(0, Null, DefaultBranch, "1", "669e757d4a24")
  }

  /** A strictly decreasing sequence of values in [lo, hi] has at most hi - lo + 1 elements. */
  lemma {:induction false} DecreasingBounded(r: seq<int>, lo: int, hi: int)
    requires forall j, k :: 0 <= j < k < |r| ==> r[j] > r[k]
    requires forall k :: 0 <= k < |r| ==> lo <= r[k] <= hi
    ensures |r| <= if hi < lo then 0 else hi - lo + 1
    decreases |r|
  {
    if r != [] {
      var rest := r[1..];
      assert forall k :: 0 <= k < |rest| ==> rest[k] == r[k + 1];
      DecreasingBounded(rest, lo, r[0] - 1);
    }
  }

  /** A strictly decreasing sequence holding exactly 0 and 1 is [1, 0]. */
  lemma DecreasingZeroOne(r: seq<int>)
    requires forall j, k :: 0 <= j < k < |r| ==> r[j] > r[k]
    requires forall x :: x in r <==> x == 0 || x == 1
    ensures r == [1, 0]
  {
    assert 0 in r && 1 in r;
    assert forall k :: 0 <= k < |r| ==> r[k] == 0 || r[k] == 1 by {
      forall k | 0 <= k < |r| ensures r[k] == 0 || r[k] == 1 {
        assert r[k] in r;
      }
    }
    DecreasingBounded(r, 0, 1);
    assert r[0] == 1;
    assert r[1] == 0;
  }

  /** With parent 000000 and revision 1, both revisions are listed, newest first. */
  lemma TwoRevsContexts(log: Log, p: int, c: int)
    requires TwoRevs(log) && p == Null && c == 1
    ensures Collected(log, p, c, false) == [1, 0]
  {
    var r := Collected(log, p, c, false);
    assert IsAncestor(log, p, 0) by { assert log[0].first == p; }
    assert IsAncestor(log, 0, c) by { assert log[c].first == 0; }
    assert IsAncestor(log, p, c) by { AncestorTransitive(log, p, 0, c); }
    assert forall x :: x in r <==> x == 0 || x == 1;
    DecreasingZeroOne(r);
  }

  /** The entries of the two revisions in the 3.1.0 listing. */
  lemma TwoRevsEntries(log: Log)
    requires TwoRevs(log)
    ensures HgReviewboard.Entry(log, 1) == "\t1:669e757d4a24 \"1\"\n"
    ensures HgReviewboard.Entry(log, 0) == "\t0:a8ea53640b24 \"0\"\n"
  {
    assert DecimalString(1) == "1" && DecimalString(0) == "0";
  }

  /** The changeset listing the 3.1.0 version shows for that review: the entry of revision 1,
      then that of revision 0 (whose text TwoRevsEntries gives). */
  lemma TwoRevsListing(log: Log, p: int, c: int)
    requires TwoRevs(log) && p == Null && c == 1
    ensures HgReviewboard.ChangesetsText(log, p, c, false) ==
              "changesets:\n" + (HgReviewboard.Entry(log, 1) + HgReviewboard.Entry(log, 0))
  {
    var entry := HgReviewboard.EntryOf(log);
    TwoRevsContexts(log, p, c);
    EntriesPair(1, 0, entry);
    assert entry(1) == HgReviewboard.Entry(log, 1) && entry(0) == HgReviewboard.Entry(log, 0);
  }

  /** An id given as '101' is taken as the number 101. */
  lemma RepoIdFromText()
    ensures ParseInt("101") == Some(101)
  {
    assert "1"[..0] == "" && DigitsValue("1") == 1;
    assert "10"[..1] == "1" && DigitsValue("10") == 10;
    assert "101"[..2] == "10" && DigitsValue("101") == 101;
    DigitsOnly("101");
  }
}
