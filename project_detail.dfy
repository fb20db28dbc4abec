/**
 * The project detail page (src/pages/ProjectDetail.tsx): the not-found guard
 * and the two handlers that patch the shown project through the repository.
 */
module ProjectDetail {
  import opened Types
  import opened AppContext

  /**
   * `id ? getProject(id) : null`: a missing or empty route id, or an id no
   * record has, takes the not-found branch.
   */
  function Lookup(ps: seq<Project>, routeId: Option<string>): (r: Option<Project>)
    ensures r.None? <==> routeId.None? || routeId.value == "" || !HasId(ps, routeId.value)
    ensures r.Some? ==> r.value in ps && r.value.id == routeId.value
  {
    if routeId.None? || routeId.value == "" then None else FindProject(ps, routeId.value)
  }

  function StatusPatch(status: Status): ProjectPatch {
    EmptyPatch.(status := Some(status))
  }

  function ImagesPatch(images: seq<ImageRef>): ProjectPatch {
    EmptyPatch.(images := Some(images))
  }

  /**
   * A status change rewrites the status and refreshes updatedAt of the
   * records carrying that id (re-selecting the current status included) and
   * leaves every other record as it was.
   */
  lemma StatusChangeEffect(ps: seq<Project>, id: string, status: Status, now: Instant)
    ensures |UpdateAll(ps, id, StatusPatch(status), now)| == |ps|
    ensures forall i :: 0 <= i < |ps| ==>
              UpdateAll(ps, id, StatusPatch(status), now)[i]
              == if ps[i].id == id then ps[i].(status := status, updatedAt := now) else ps[i]
  {
  }

  /**
   * An upload appends the new references after the shown project's old ones,
   * keeping their order; with unique ids only that record changes.
   */
  lemma {:induction false} ImageUploadEffect(ps: seq<Project>, i: nat, files: seq<ImageRef>, now: Instant)
    requires UniqueIds(ps) && i < |ps|
    ensures var r := UpdateAll(ps, ps[i].id, ImagesPatch(ps[i].images + files), now);
      && |r| == |ps|
      && r[i] == ps[i].(images := ps[i].images + files, updatedAt := now)
      && r[i].images[..|ps[i].images|] == ps[i].images
      && |r[i].images| == |ps[i].images| + |files|
      && (forall j :: 0 <= j < |ps| && j != i ==> r[j] == ps[j])
  {
    var r := UpdateAll(ps, ps[i].id, ImagesPatch(ps[i].images + files), now);
    forall j | 0 <= j < |ps| && j != i ensures r[j] == ps[j] {
      assert ps[j].id != ps[i].id;
    }
  }

  /** handleStatusChange, reachable only when the project was found. */
  method ChangeStatus(repo: Repository, routeId: Option<string>, status: Status, now: Instant) returns (found: bool)
    requires repo.Valid()
    modifies repo
    ensures repo.Valid()
    ensures found <==> Lookup(old(repo.projects), routeId).Some?
    ensures !found ==> repo.projects == old(repo.projects) && repo.storedProjects == old(repo.storedProjects)
    ensures found ==>
              && repo.projects == UpdateAll(old(repo.projects), Lookup(old(repo.projects), routeId).value.id, StatusPatch(status), now)
              && repo.storedProjects == Some(repo.projects)
    ensures repo.settings == old(repo.settings) && repo.storedSettings == old(repo.storedSettings)
  {
    var project := Lookup(repo.projects, routeId);
    if project.None? {
      return false;
    }
    repo.UpdateProject(project.value.id, StatusPatch(status), now);
    found := true;
  }

  /**
   * handleImageUpload. `files` is the input's file list (None when the input
   * has none; an empty list is still truthy and still patches).
   */
  method UploadImages(repo: Repository, routeId: Option<string>, files: Option<seq<ImageRef>>, now: Instant)
    returns (updated: bool)
    requires repo.Valid()
    modifies repo
    ensures repo.Valid()
    ensures updated <==> Lookup(old(repo.projects), routeId).Some? && files.Some?
    ensures !updated ==> repo.projects == old(repo.projects) && repo.storedProjects == old(repo.storedProjects)
    ensures updated ==>
              var p := Lookup(old(repo.projects), routeId).value;
              && repo.projects == UpdateAll(old(repo.projects), p.id, ImagesPatch(p.images + files.value), now)
              && repo.storedProjects == Some(repo.projects)
    ensures repo.settings == old(repo.settings) && repo.storedSettings == old(repo.storedSettings)
  {
    var project := Lookup(repo.projects, routeId);
    if project.None? || files.None? {
      return false;
    }
    repo.UpdateProject(project.value.id, ImagesPatch(project.value.images + files.value), now);
    updated := true;
  }
}
