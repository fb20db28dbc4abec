/**
 * The project repository (src/context/AppContext.tsx): the project list and
 * the settings record, their write-through to browser storage, lookup by id
 * and the dashboard aggregation.
 */
module AppContext {
  import opened Types

  /** The settings the provider starts from when nothing is stored. */
  const DefaultSettings := AppSettings(13.8, 50000.0)

  predicate HasId(ps: seq<Project>, id: string) {
    exists i :: 0 <= i < |ps| && ps[i].id == id
  }

  predicate UniqueIds(ps: seq<Project>) {
    forall i, j :: 0 <= i < j < |ps| ==> ps[i].id != ps[j].id
  }

  // ---------------------------------------------------------------------
  // Lookup (Array.prototype.find: the first record with that id)

  function FindProject(ps: seq<Project>, id: string): (r: Option<Project>)
    ensures r.None? <==> !HasId(ps, id)
    ensures r.Some? ==> r.value in ps && r.value.id == id
  {
    if ps == [] then None
    else if ps[0].id == id then Some(ps[0])
    else
      var r := FindProject(ps[1..], id);
      assert HasId(ps, id) ==> ps[0].id == id || HasId(ps[1..], id) by {
        if HasId(ps, id) {
          var i :| 0 <= i < |ps| && ps[i].id == id;
          if i > 0 { assert ps[1..][i - 1].id == id; }
        }
      }
      assert HasId(ps[1..], id) ==> HasId(ps, id) by {
        if HasId(ps[1..], id) {
          var i :| 0 <= i < |ps[1..]| && ps[1..][i].id == id;
          assert ps[i + 1].id == id;
        }
      }
      r
  }

  /** `find` returns the FIRST match: on a concatenation the left part wins. */
  lemma {:induction false} FindAppend(a: seq<Project>, b: seq<Project>, id: string)
    ensures FindProject(a + b, id) == if HasId(a, id) then FindProject(a, id) else FindProject(b, id)
  {
    if a == [] {
      assert a + b == b;
    } else {
      assert (a + b)[1..] == a[1..] + b;
      FindAppend(a[1..], b, id);
      if a[0].id != id {
        assert HasId(a, id) == HasId(a[1..], id) by {
          if HasId(a, id) {
            var i :| 0 <= i < |a| && a[i].id == id;
            assert a[1..][i - 1].id == id;
          }
          if HasId(a[1..], id) {
            var i :| 0 <= i < |a[1..]| && a[1..][i].id == id;
            assert a[i + 1].id == id;
          }
        }
      } else {
        assert HasId(a, id) by { assert a[0].id == id; }
      }
    }
  }

  /** With unique ids, looking up a record's id returns that very record. */
  lemma {:induction false} FindUnique(ps: seq<Project>, i: nat)
    requires UniqueIds(ps) && i < |ps|
    ensures FindProject(ps, ps[i].id) == Some(ps[i])
  {
    if i > 0 {
      assert UniqueIds(ps[1..]);
      assert ps[1..][i - 1] == ps[i];
      FindUnique(ps[1..], i - 1);
      assert ps[0].id != ps[i].id;
    }
  }

  // ---------------------------------------------------------------------
  // addProject

  /** The fields the caller supplies: everything but id and the timestamps. */
  function DraftOf(p: Project): ProjectDraft {
    ProjectDraft(p.personalDetails, p.systemConfiguration, p.calculations, p.images, p.status)
  }

  /**
   * `{...projectData, id, createdAt, updatedAt}`: the caller's fields are
   * copied verbatim (nothing is recomputed) and the two timestamps agree.
   */
  function FromDraft(d: ProjectDraft, id: string, now: Instant): (p: Project)
    ensures DraftOf(p) == d
    ensures p.id == id && p.createdAt == now && p.updatedAt == now
  {
    Project(id, d.personalDetails, d.systemConfiguration, d.calculations, d.images, d.status, now, now)
  }

  /**
   * Right after an add, looking the new id up finds the new record exactly
   * when the id was not already in use; otherwise the older record shadows it.
   */
  lemma AddThenGet(ps: seq<Project>, d: ProjectDraft, id: string, now: Instant)
    ensures FindProject(ps + [FromDraft(d, id, now)], id)
            == if HasId(ps, id) then FindProject(ps, id) else Some(FromDraft(d, id, now))
  {
    FindAppend(ps, [FromDraft(d, id, now)], id);
  }

  lemma {:induction false} AddKeepsUniqueIds(ps: seq<Project>, p: Project)
    requires UniqueIds(ps) && !HasId(ps, p.id)
    ensures UniqueIds(ps + [p])
  {
    var qs := ps + [p];
    forall i, j | 0 <= i < j < |qs| ensures qs[i].id != qs[j].id {
      if j == |ps| {
        assert qs[i] == ps[i];
      } else {
        assert qs[i] == ps[i] && qs[j] == ps[j];
      }
    }
  }

  // ---------------------------------------------------------------------
  // updateProject

  /**
   * `{...project, ...projectData, updatedAt: now}`: every key present in the
   * patch overrides the record's, except updatedAt, which is always `now`.
   * Calculations are never recomputed, even when the configuration changes.
   */
  function Merge(p: Project, patch: ProjectPatch, now: Instant): (r: Project)
    ensures r.updatedAt == now
    ensures patch.id.Some? ==> r.id == patch.id.value
    ensures patch.id.None? ==> r.id == p.id
    ensures patch.personalDetails.Some? ==> r.personalDetails == patch.personalDetails.value
    ensures patch.personalDetails.None? ==> r.personalDetails == p.personalDetails
    ensures patch.systemConfiguration.Some? ==> r.systemConfiguration == patch.systemConfiguration.value
    ensures patch.systemConfiguration.None? ==> r.systemConfiguration == p.systemConfiguration
    ensures patch.calculations.Some? ==> r.calculations == patch.calculations.value
    ensures patch.calculations.None? ==> r.calculations == p.calculations
    ensures patch.images.Some? ==> r.images == patch.images.value
    ensures patch.images.None? ==> r.images == p.images
    ensures patch.status.Some? ==> r.status == patch.status.value
    ensures patch.status.None? ==> r.status == p.status
    ensures patch.createdAt.Some? ==> r.createdAt == patch.createdAt.value
    ensures patch.createdAt.None? ==> r.createdAt == p.createdAt
    ensures patch == EmptyPatch ==> r == p.(updatedAt := now)
  {
    Project(
      patch.id.GetOr(p.id),
      patch.personalDetails.GetOr(p.personalDetails),
      patch.systemConfiguration.GetOr(p.systemConfiguration),
      patch.calculations.GetOr(p.calculations),
      patch.images.GetOr(p.images),
      patch.status.GetOr(p.status),
      patch.createdAt.GetOr(p.createdAt),
      now)
  }

  /** One step of `projects.map(...)`. */
  function UpdateOne(p: Project, id: string, patch: ProjectPatch, now: Instant): Project {
    if p.id == id then Merge(p, patch, now) else p
  }

  /** `projects.map(project => project.id === id ? merged : project)`. */
  function UpdateAll(ps: seq<Project>, id: string, patch: ProjectPatch, now: Instant): (r: seq<Project>)
    ensures |r| == |ps|
    ensures forall i :: 0 <= i < |ps| ==> r[i] == UpdateOne(ps[i], id, patch, now)
  {
    if ps == [] then []
    else [UpdateOne(ps[0], id, patch, now)] + UpdateAll(ps[1..], id, patch, now)
  }

  /** An id that is not in the list leaves the list as it was. */
  lemma UpdateAbsentIsNoop(ps: seq<Project>, id: string, patch: ProjectPatch, now: Instant)
    requires !HasId(ps, id)
    ensures UpdateAll(ps, id, patch, now) == ps
  {
    var r := UpdateAll(ps, id, patch, now);
    forall i | 0 <= i < |ps| ensures r[i] == ps[i] {
      assert ps[i].id != id;
    }
  }

  /** A patch without an id keeps every record's id, hence their uniqueness. */
  lemma UpdateKeepsUniqueIds(ps: seq<Project>, id: string, patch: ProjectPatch, now: Instant)
    requires UniqueIds(ps) && patch.id.None?
    ensures UniqueIds(UpdateAll(ps, id, patch, now))
  {
    var r := UpdateAll(ps, id, patch, now);
    forall i | 0 <= i < |ps| ensures r[i].id == ps[i].id { }
  }

  /** After an update of an existing id, looking it up yields the merged record. */
  lemma UpdateThenGet(ps: seq<Project>, i: nat, patch: ProjectPatch, now: Instant)
    requires UniqueIds(ps) && i < |ps| && patch.id.None?
    ensures FindProject(UpdateAll(ps, ps[i].id, patch, now), ps[i].id) == Some(Merge(ps[i], patch, now))
  {
    UpdateKeepsUniqueIds(ps, ps[i].id, patch, now);
    FindUnique(UpdateAll(ps, ps[i].id, patch, now), i);
  }

  // ---------------------------------------------------------------------
  // deleteProject

  /** `projects.filter(project => project.id !== id)`. */
  function Without(ps: seq<Project>, id: string): (r: seq<Project>)
    ensures |r| <= |ps|
    ensures forall q :: q in r <==> q in ps && q.id != id
    ensures !HasId(ps, id) ==> r == ps
  {
    if ps == [] then []
    else if ps[0].id == id then Without(ps[1..], id)
    else
      assert !HasId(ps, id) ==> !HasId(ps[1..], id) by {
        if HasId(ps[1..], id) {
          var i :| 0 <= i < |ps[1..]| && ps[1..][i].id == id;
          assert ps[i + 1].id == id;
        }
      }
      assert ps == [ps[0]] + ps[1..];
      [ps[0]] + Without(ps[1..], id)
  }

  /** Filtering keeps the survivors' order: it distributes over concatenation. */
  lemma {:induction false} WithoutAppend(a: seq<Project>, b: seq<Project>, id: string)
    ensures Without(a + b, id) == Without(a, id) + Without(b, id)
  {
    if a == [] {
      assert a + b == b;
    } else {
      assert (a + b)[1..] == a[1..] + b;
      WithoutAppend(a[1..], b, id);
    }
  }

  /** After a delete the id is gone, and no other id's lookup is affected. */
  lemma {:induction false} DeleteThenGet(ps: seq<Project>, id: string, other: string)
    requires other != id
    ensures FindProject(Without(ps, id), id) == None
    ensures FindProject(Without(ps, id), other) == FindProject(ps, other)
  {
    if ps != [] {
      DeleteThenGet(ps[1..], id, other);
      if ps[0].id != id {
        assert Without(ps, id)[1..] == Without(ps[1..], id);
      }
    }
  }

  /** With unique ids, deleting an existing id removes exactly one record. */
  lemma {:induction false} DeleteRemovesOne(ps: seq<Project>, id: string)
    requires UniqueIds(ps) && HasId(ps, id)
    ensures |Without(ps, id)| == |ps| - 1
  {
    assert ps != [];
    assert UniqueIds(ps[1..]);
    if ps[0].id == id {
      forall k | 0 <= k < |ps[1..]| ensures ps[1..][k].id != id {
        assert ps[1..][k] == ps[k + 1];
      }
    } else {
      assert HasId(ps[1..], id) by {
        var i :| 0 <= i < |ps| && ps[i].id == id;
        assert ps[1..][i - 1].id == id;
      }
      DeleteRemovesOne(ps[1..], id);
    }
  }

  // ---------------------------------------------------------------------
  // updateSettings

  /**
   * `{...settings, ...newSettings}`: a field present in the patch replaces the
   * current one, an absent field is kept.
   */
  function ApplySettings(s: AppSettings, patch: SettingsPatch): (r: AppSettings)
    ensures patch.defaultGstPercentage.Some? ==> r.defaultGstPercentage == patch.defaultGstPercentage.value
    ensures patch.defaultGstPercentage.None? ==> r.defaultGstPercentage == s.defaultGstPercentage
    ensures patch.defaultBasePricePerKw.Some? ==> r.defaultBasePricePerKw == patch.defaultBasePricePerKw.value
    ensures patch.defaultBasePricePerKw.None? ==> r.defaultBasePricePerKw == s.defaultBasePricePerKw
    ensures patch == SettingsPatch(None, None) ==> r == s
  {
    AppSettings(
      patch.defaultGstPercentage.GetOr(s.defaultGstPercentage),
      patch.defaultBasePricePerKw.GetOr(s.defaultBasePricePerKw))
  }

  /** Applying the same settings patch twice is the same as applying it once. */
  lemma ApplySettingsIdempotent(s: AppSettings, patch: SettingsPatch)
    ensures ApplySettings(ApplySettings(s, patch), patch) == ApplySettings(s, patch)
  {
  }

  // ---------------------------------------------------------------------
  // getDashboardStats

  /** `projects.filter(p => p.status === status)`. */
  function WithStatus(ps: seq<Project>, status: Status): (r: seq<Project>)
    ensures |r| <= |ps|
    ensures forall q :: q in r <==> q in ps && q.status == status
  {
    if ps == [] then []
    else
      assert ps == [ps[0]] + ps[1..];
      (if ps[0].status == status then [ps[0]] else []) + WithStatus(ps[1..], status)
  }

  lemma {:induction false} WithStatusAppend(a: seq<Project>, b: seq<Project>, status: Status)
    ensures WithStatus(a + b, status) == WithStatus(a, status) + WithStatus(b, status)
  {
    if a == [] {
      assert a + b == b;
    } else {
      assert (a + b)[1..] == a[1..] + b;
      WithStatusAppend(a[1..], b, status);
    }
  }

  function SumPayable(ps: seq<Project>): real {
    if ps == [] then 0.0 else ps[0].calculations.totalPayableAmount + SumPayable(ps[1..])
  }

  function SumSize(ps: seq<Project>): real {
    if ps == [] then 0.0 else ps[0].calculations.systemSize + SumSize(ps[1..])
  }

  lemma {:induction false} SumsAppend(a: seq<Project>, b: seq<Project>)
    ensures SumPayable(a + b) == SumPayable(a) + SumPayable(b)
    ensures SumSize(a + b) == SumSize(a) + SumSize(b)
  {
    if a == [] {
      assert a + b == b;
    } else {
      assert (a + b)[1..] == a[1..] + b;
      SumsAppend(a[1..], b);
    }
  }

  /** Months counted from year 0: consecutive months have consecutive indices. */
  function MonthIndex(ym: YearMonth): int {
    ym.year * 12 + (ym.month - 1)
  }

  function MonthAt(k: int): (ym: YearMonth)
    ensures ValidMonth(ym) && MonthIndex(ym) == k
  {
    YearMonth(k / 12, k % 12 + 1)
  }

  /** The calendar month `i` months before `ym` (`date.setMonth(getMonth() - i)`). */
  function MonthsBefore(ym: YearMonth, i: nat): YearMonth {
    MonthAt(MonthIndex(ym) - i)
  }

  /**
   * The six months of the chart, oldest first: the code builds them newest
   * first (i = 0..5 months back) and reverses the array. Across a year
   * boundary they stay distinct and chronological.
   */
  function Window(current: YearMonth): (w: seq<YearMonth>)
    ensures |w| == 6
    ensures forall k :: 0 <= k < 6 ==> ValidMonth(w[k]) && MonthIndex(w[k]) == MonthIndex(current) - (5 - k)
    ensures forall j, k :: 0 <= j < k < 6 ==> MonthIndex(w[j]) < MonthIndex(w[k])
    ensures ValidMonth(current) ==> w[5] == current
  {
    [MonthsBefore(current, 5), MonthsBefore(current, 4), MonthsBefore(current, 3),
     MonthsBefore(current, 2), MonthsBefore(current, 1), MonthsBefore(current, 0)]
  }

  /** The projects whose createdAt has the month key `m`. */
  function CreatedIn(ps: seq<Project>, m: YearMonth): (r: seq<Project>)
    ensures forall q :: q in r <==> q in ps && q.createdAt.month == m
  {
    if ps == [] then []
    else
      assert ps == [ps[0]] + ps[1..];
      (if ps[0].createdAt.month == m then [ps[0]] else []) + CreatedIn(ps[1..], m)
  }

  /** The projects whose createdAt month key is one of `ms`. */
  function CreatedInAny(ps: seq<Project>, ms: set<YearMonth>): (r: seq<Project>)
    ensures forall q :: q in r <==> q in ps && q.createdAt.month in ms
  {
    if ps == [] then []
    else
      assert ps == [ps[0]] + ps[1..];
      (if ps[0].createdAt.month in ms then [ps[0]] else []) + CreatedInAny(ps[1..], ms)
  }

  function Bucket(completed: seq<Project>, m: YearMonth): MonthlyEntry {
    var inMonth := CreatedIn(completed, m);
    MonthlyEntry(m, SumPayable(inMonth), |inMonth|)
  }

  function Buckets(completed: seq<Project>, ms: seq<YearMonth>): (r: seq<MonthlyEntry>)
    ensures |r| == |ms|
    ensures forall k :: 0 <= k < |ms| ==> r[k] == Bucket(completed, ms[k])
  {
    if ms == [] then [] else [Bucket(completed, ms[0])] + Buckets(completed, ms[1..])
  }

  function Stats(ps: seq<Project>, current: YearMonth): DashboardStats {
    var completed := WithStatus(ps, Completed);
    DashboardStats(SumPayable(completed), SumSize(completed), |ps|, Buckets(completed, Window(current)))
  }

  function SumIncome(es: seq<MonthlyEntry>): real {
    if es == [] then 0.0 else es[0].income + SumIncome(es[1..])
  }

  function SumProjects(es: seq<MonthlyEntry>): nat {
    if es == [] then 0 else es[0].projects + SumProjects(es[1..])
  }

  /** The stats of an empty list: zero totals and six zero-valued months. */
  lemma EmptyStats(current: YearMonth)
    ensures Stats([], current).totalIncome == 0.0 && Stats([], current).totalKwInstalled == 0.0
    ensures Stats([], current).totalProjects == 0 && |Stats([], current).monthlyData| == 6
    ensures forall k :: 0 <= k < 6 ==>
              Stats([], current).monthlyData[k] == MonthlyEntry(Window(current)[k], 0.0, 0)
  {
  }

  /** Drafts count toward totalProjects only. */
  lemma AddingDraftKeepsFigures(ps: seq<Project>, p: Project, current: YearMonth)
    requires p.status == Draft
    ensures Stats(ps + [p], current) == Stats(ps, current).(totalProjects := |ps| + 1)
  {
    WithStatusAppend(ps, [p], Completed);
    assert WithStatus([p], Completed) == [];
    assert WithStatus(ps + [p], Completed) == WithStatus(ps, Completed);
  }

  /** A completed project adds its total and size, and is counted once more. */
  lemma AddingCompletedAddsFigures(ps: seq<Project>, p: Project, current: YearMonth)
    requires p.status == Completed
    ensures Stats(ps + [p], current).totalIncome == Stats(ps, current).totalIncome + p.calculations.totalPayableAmount
    ensures Stats(ps + [p], current).totalKwInstalled == Stats(ps, current).totalKwInstalled + p.calculations.systemSize
    ensures Stats(ps + [p], current).totalProjects == Stats(ps, current).totalProjects + 1
  {
    WithStatusAppend(ps, [p], Completed);
    assert WithStatus([p], Completed) == [p];
    SumsAppend(WithStatus(ps, Completed), [p]);
  }

  /** Splitting off one month from a set of months splits the selection. */
  lemma {:induction false} CreatedInAnySplit(ps: seq<Project>, m: YearMonth, rest: set<YearMonth>)
    requires m !in rest
    ensures |CreatedInAny(ps, {m} + rest)| == |CreatedIn(ps, m)| + |CreatedInAny(ps, rest)|
    ensures SumPayable(CreatedInAny(ps, {m} + rest)) == SumPayable(CreatedIn(ps, m)) + SumPayable(CreatedInAny(ps, rest))
  {
    if ps != [] {
      CreatedInAnySplit(ps[1..], m, rest);
      var p := ps[0];
      var one := if p.createdAt.month in {m} + rest then [p] else [];
      var inM := if p.createdAt.month == m then [p] else [];
      var inRest := if p.createdAt.month in rest then [p] else [];
      SumsAppend(one, CreatedInAny(ps[1..], {m} + rest));
      SumsAppend(inM, CreatedIn(ps[1..], m));
      SumsAppend(inRest, CreatedInAny(ps[1..], rest));
    }
  }

  /**
   * Over distinct months, the bars add up to exactly the completed projects
   * created in those months: no project is counted in two bars.
   */
  lemma {:induction false} BucketsTotals(completed: seq<Project>, ms: seq<YearMonth>)
    requires forall j, k :: 0 <= j < k < |ms| ==> ms[j] != ms[k]
    ensures SumProjects(Buckets(completed, ms)) == |CreatedInAny(completed, set k | 0 <= k < |ms| :: ms[k])|
    ensures SumIncome(Buckets(completed, ms)) == SumPayable(CreatedInAny(completed, set k | 0 <= k < |ms| :: ms[k]))
  {
    var all := set k | 0 <= k < |ms| :: ms[k];
    if ms == [] {
      assert all == {};
      NoneInEmpty(completed);
    } else {
      var rest := set k | 0 <= k < |ms[1..]| :: ms[1..][k];
      assert all == {ms[0]} + rest by {
        forall m | m in all ensures m in {ms[0]} + rest {
          var k :| 0 <= k < |ms| && ms[k] == m;
          if k > 0 { assert ms[1..][k - 1] == m; }
        }
        forall m | m in rest ensures m in all {
          var k :| 0 <= k < |ms[1..]| && ms[1..][k] == m;
          assert ms[k + 1] == m;
        }
      }
      forall k | 0 <= k < |ms[1..]| ensures ms[1..][k] != ms[0] {
        assert ms[1..][k] == ms[k + 1];
      }
      BucketsTotals(completed, ms[1..]);
      CreatedInAnySplit(completed, ms[0], rest);
      assert Buckets(completed, ms)[1..] == Buckets(completed, ms[1..]);
    }
  }

  lemma {:induction false} NoneInEmpty(ps: seq<Project>)
    ensures CreatedInAny(ps, {}) == []
  {
    if ps != [] {
      NoneInEmpty(ps[1..]);
    }
  }

  /**
   * The chart: exactly six bars, oldest first, for consecutive months ending
   * at the current one; together they count and sum exactly the completed
   * projects created in that window.
   */
  lemma MonthlyDataDescribesWindow(ps: seq<Project>, current: YearMonth)
    ensures var d := Stats(ps, current).monthlyData;
      |d| == 6
      && (forall k :: 0 <= k < 6 ==> MonthIndex(d[k].month) == MonthIndex(current) - (5 - k))
      && SumProjects(d) == |CreatedInAny(WithStatus(ps, Completed), set k | 0 <= k < 6 :: Window(current)[k])|
      && SumIncome(d) == SumPayable(CreatedInAny(WithStatus(ps, Completed), set k | 0 <= k < 6 :: Window(current)[k]))
  {
    var w := Window(current);
    assert forall j, k :: 0 <= j < k < |w| ==> w[j] != w[k] by {
      forall j, k | 0 <= j < k < |w| ensures w[j] != w[k] {
        assert MonthIndex(w[j]) < MonthIndex(w[k]);
      }
    }
    BucketsTotals(WithStatus(ps, Completed), w);
  }

  // ---------------------------------------------------------------------
  // The provider

  class Repository {
    var projects: seq<Project>
    var settings: AppSettings
    /** What browser storage holds under the two keys; None when a key is absent. */
    ghost var storedProjects: Option<seq<Project>>
    ghost var storedSettings: Option<AppSettings>

    /**
     * Storage mirrors the in-memory state. The project list is mirrored up to
     * order: the dashboard sorts the in-memory array in place without a write.
     */
    ghost predicate Valid()
      reads this
    {
      && multiset(projects) == multiset(storedProjects.GetOr([]))
      && settings == storedSettings.GetOr(DefaultSettings)
    }

    /** Mounting the provider: defaults, replaced by whatever storage holds. */
    constructor (savedProjects: Option<seq<Project>>, savedSettings: Option<AppSettings>)
      ensures Valid()
      ensures projects == savedProjects.GetOr([]) && settings == savedSettings.GetOr(DefaultSettings)
      ensures storedProjects == savedProjects && storedSettings == savedSettings
    {
      projects := savedProjects.GetOr([]);
      settings := savedSettings.GetOr(DefaultSettings);
      storedProjects := savedProjects;
      storedSettings := savedSettings;
    }

    method AddProject(data: ProjectDraft, id: string, now: Instant) returns (newId: string)
      requires Valid()
      modifies this
      ensures Valid()
      ensures newId == id
      ensures projects == old(projects) + [FromDraft(data, id, now)]
      ensures storedProjects == Some(projects)
      ensures settings == old(settings) && storedSettings == old(storedSettings)
      ensures UniqueIds(old(projects)) && !HasId(old(projects), id) ==>
                UniqueIds(projects) && GetProject(id) == Some(FromDraft(data, id, now))
    {
      var newProject := FromDraft(data, id, now);
      if UniqueIds(projects) && !HasId(projects, id) {
        AddKeepsUniqueIds(projects, newProject);
      }
      AddThenGet(projects, data, id, now);
      projects := projects + [newProject];
      storedProjects := Some(projects);
      newId := newProject.id;
    }

    method UpdateProject(id: string, patch: ProjectPatch, now: Instant)
      requires Valid()
      modifies this
      ensures Valid()
      ensures projects == UpdateAll(old(projects), id, patch, now)
      ensures storedProjects == Some(projects)
      ensures settings == old(settings) && storedSettings == old(storedSettings)
      ensures !HasId(old(projects), id) ==> projects == old(projects)
      ensures UniqueIds(old(projects)) && patch.id.None? ==> UniqueIds(projects)
    {
      if !HasId(projects, id) {
        UpdateAbsentIsNoop(projects, id, patch, now);
      }
      if UniqueIds(projects) && patch.id.None? {
        UpdateKeepsUniqueIds(projects, id, patch, now);
      }
      projects := UpdateAll(projects, id, patch, now);
      storedProjects := Some(projects);
    }

    method DeleteProject(id: string)
      requires Valid()
      modifies this
      ensures Valid()
      ensures projects == Without(old(projects), id)
      ensures storedProjects == Some(projects)
      ensures settings == old(settings) && storedSettings == old(storedSettings)
      ensures GetProject(id) == None
    {
      projects := Without(projects, id);
      storedProjects := Some(projects);
    }

    function GetProject(id: string): (r: Option<Project>)
      reads this
      ensures r.None? <==> !HasId(projects, id)
      ensures r.Some? ==> r.value in projects && r.value.id == id
    {
      FindProject(projects, id)
    }

    method UpdateSettings(patch: SettingsPatch)
      requires Valid()
      modifies this
      ensures Valid()
      ensures settings == ApplySettings(old(settings), patch)
      ensures storedSettings == Some(settings)
      ensures projects == old(projects) && storedProjects == old(storedProjects)
    {
      settings := ApplySettings(settings, patch);
      storedSettings := Some(settings);
    }

    /** The dashboard figures for the month `current` (the clock's month). */
    function GetDashboardStats(current: YearMonth): (r: DashboardStats)
      reads this
      ensures r.totalProjects == |projects| && |r.monthlyData| == 6
      ensures r.totalIncome == SumPayable(WithStatus(projects, Completed))
      ensures r.totalKwInstalled == SumSize(WithStatus(projects, Completed))
    {
      Stats(projects, current)
    }
  }
}
