/**
 * The dashboard page (src/pages/Dashboard.tsx): the five most recent
 * projects, obtained by sorting the shared project array in place, and the
 * completed-projects badge.
 */
module Dashboard {
  import opened Types
  import opened AppContext

  /** Newest first by createdAt. */
  predicate NewestFirst(ps: seq<Project>) {
    forall i, j :: 0 <= i < j < |ps| ==> ps[i].createdAt.millis >= ps[j].createdAt.millis
  }

  /** Place `p` before the first element no newer than it (keeps equal keys in order). */
  function InsertNewestFirst(p: Project, ps: seq<Project>): (r: seq<Project>)
    ensures multiset(r) == multiset(ps) + multiset{p}
    ensures |r| == |ps| + 1
  {
    if ps == [] || ps[0].createdAt.millis <= p.createdAt.millis then [p] + ps
    else
      assert ps == [ps[0]] + ps[1..];
      [ps[0]] + InsertNewestFirst(p, ps[1..])
  }

  lemma {:induction false} InsertKeepsOrder(p: Project, ps: seq<Project>)
    requires NewestFirst(ps)
    ensures NewestFirst(InsertNewestFirst(p, ps))
    ensures InsertNewestFirst(p, ps) != [] && ps != [] ==>
              InsertNewestFirst(p, ps)[0].createdAt.millis == if ps[0].createdAt.millis <= p.createdAt.millis then p.createdAt.millis else ps[0].createdAt.millis
  {
    if ps != [] && ps[0].createdAt.millis > p.createdAt.millis {
      InsertKeepsOrder(p, ps[1..]);
      var tail := InsertNewestFirst(p, ps[1..]);
      forall k | 0 <= k < |tail| ensures tail[k].createdAt.millis <= ps[0].createdAt.millis {
        assert tail[k] in multiset(tail);
        assert tail[k] in multiset(ps[1..]) + multiset{p};
        if tail[k] in multiset(ps[1..]) {
          var m :| 0 <= m < |ps[1..]| && ps[1..][m] == tail[k];
          assert ps[m + 1] == tail[k];
        }
      }
    }
  }

  /**
   * `projects.sort((a, b) => b.createdAt - a.createdAt)`: a stable sort,
   * newest first (an insertion sort gives the same order as any stable sort).
   */
  function SortNewestFirst(ps: seq<Project>): (r: seq<Project>)
    ensures |r| == |ps|
    ensures multiset(r) == multiset(ps)
  {
    if ps == [] then []
    else
      assert ps == [ps[0]] + ps[1..];
      InsertNewestFirst(ps[0], SortNewestFirst(ps[1..]))
  }

  /** The sort yields a newest-first list. */
  lemma {:induction false} SortIsOrdered(ps: seq<Project>)
    ensures NewestFirst(SortNewestFirst(ps))
  {
    if ps != [] {
      SortIsOrdered(ps[1..]);
      InsertKeepsOrder(ps[0], SortNewestFirst(ps[1..]));
    }
  }

  function Min(a: nat, b: nat): nat { if a <= b then a else b }

  /**
   * `.slice(0, 5)` of the sorted list: at most five projects, all of them
   * projects of the list, and every project when there are at most five.
   */
  function Recent(ps: seq<Project>): (r: seq<Project>)
    ensures |r| == Min(|ps|, 5)
    ensures multiset(r) <= multiset(ps)
    ensures |ps| <= 5 ==> multiset(r) == multiset(ps)
  {
    var s := SortNewestFirst(ps);
    var r := s[..Min(|s|, 5)];
    assert s == r + s[|r|..];
    assert |ps| <= 5 ==> r == s;
    r
  }

  /** The projects the list leaves out, in sorted order. */
  function Older(ps: seq<Project>): (rest: seq<Project>)
    ensures Recent(ps) + rest == SortNewestFirst(ps)
    ensures multiset(rest) == multiset(ps) - multiset(Recent(ps))
  {
    var s := SortNewestFirst(ps);
    var rest := s[Min(|s|, 5)..];
    assert s == Recent(ps) + rest;
    assert multiset(s) == multiset(Recent(ps)) + multiset(rest);
    rest
  }

  /**
   * The list is newest first, and no project it leaves out is newer than a
   * project it shows.
   */
  lemma RecentAreNewest(ps: seq<Project>)
    ensures NewestFirst(Recent(ps))
    ensures forall i, j :: 0 <= i < |Recent(ps)| && 0 <= j < |Older(ps)| ==>
              Recent(ps)[i].createdAt.millis >= Older(ps)[j].createdAt.millis
  {
    SortIsOrdered(ps);
    var s := SortNewestFirst(ps);
    var r := Recent(ps);
    var rest := Older(ps);
    forall i, j | 0 <= i < j < |r| ensures r[i].createdAt.millis >= r[j].createdAt.millis {
      assert r[i] == s[i] && r[j] == s[j];
    }
    forall i, j | 0 <= i < |r| && 0 <= j < |rest| ensures r[i].createdAt.millis >= rest[j].createdAt.millis {
      assert r[i] == s[i] && rest[j] == s[|r| + j];
    }
  }

  /**
   * `recentProjects`: the sort reorders the provider's array itself (storage
   * is not written), then the first five are taken.
   */
  method RecentProjects(repo: Repository) returns (recent: seq<Project>)
    requires repo.Valid()
    modifies repo
    ensures repo.Valid()
    ensures repo.projects == SortNewestFirst(old(repo.projects))
    ensures multiset(repo.projects) == multiset(old(repo.projects))
    ensures recent == Recent(old(repo.projects))
    ensures repo.settings == old(repo.settings)
    ensures repo.storedProjects == old(repo.storedProjects) && repo.storedSettings == old(repo.storedSettings)
  {
    repo.projects := SortNewestFirst(repo.projects);
    recent := repo.projects[..Min(|repo.projects|, 5)];
  }

  /** The badge: the number of completed projects. */
  function CompletedCount(ps: seq<Project>): (n: nat)
    ensures n <= |ps|
  {
    |WithStatus(ps, Completed)|
  }

  /** The badge reads the list after the in-place sort: reordering does not change it. */
  lemma {:induction false} CompletedCountIgnoresOrder(ps: seq<Project>)
    ensures CompletedCount(SortNewestFirst(ps)) == CompletedCount(ps)
  {
    if ps != [] {
      CompletedCountIgnoresOrder(ps[1..]);
      InsertCount(ps[0], SortNewestFirst(ps[1..]));
    }
  }

  lemma {:induction false} InsertCount(p: Project, ps: seq<Project>)
    ensures CompletedCount(InsertNewestFirst(p, ps)) == CompletedCount([p]) + CompletedCount(ps)
  {
    if ps == [] || ps[0].createdAt.millis <= p.createdAt.millis {
      WithStatusAppend([p], ps, Completed);
    } else {
      InsertCount(p, ps[1..]);
      WithStatusAppend([ps[0]], InsertNewestFirst(p, ps[1..]), Completed);
      WithStatusAppend([ps[0]], ps[1..], Completed);
      assert ps == [ps[0]] + ps[1..];
    }
  }
}
