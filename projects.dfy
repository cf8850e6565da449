/** The saved-project list and the open project tabs. The store keeps the
    projects (newest saves first), the id of the current project and the open
    tabs; every action reassigns or updates these in place, so they are the
    fields of `ProjectStore`. A project's drawing is kept as its JSON text,
    timestamps are passed in by the caller, and the localStorage copy of the
    list is not modelled. */
module Projects {
  import opened Common

  /** The drawing, as the JSON text the store serialises. */
  type Data = string

  /** At most this many projects are kept after a new save. */
  const MaxProjects: nat := 50

  datatype Project = Project(
    id: string,
    name: string,
    data: Data,
    createdAt: nat,
    updatedAt: nat,
    thumbnail: Option<string>)

  /** An open tab. */
  datatype Tab = Tab(id: string, name: string, unsaved: bool)

  /** `project-${timestamp}` */
  function NewId(timestamp: nat): string
  {
    "project-" + NatToString(timestamp)
  }

  // ---------------------------------------------------------------- lookups

  /** The position of the first project with that id, or |ps|. */
  function FindProject(ps: seq<Project>, id: string): (k: nat)
    ensures k <= |ps|
    ensures k < |ps| ==> ps[k].id == id
    ensures forall i :: 0 <= i < k ==> ps[i].id != id
    ensures k == |ps| <==> forall i :: 0 <= i < |ps| ==> ps[i].id != id
  {
    FirstIndex(ps, (p: Project) => p.id == id)
  }

  /** The position of the first tab with that id, or |tabs|. */
  function FindTab(tabs: seq<Tab>, id: string): (k: nat)
    ensures k <= |tabs|
    ensures k < |tabs| ==> tabs[k].id == id
    ensures forall i :: 0 <= i < k ==> tabs[i].id != id
    ensures k == |tabs| <==> forall i :: 0 <= i < |tabs| ==> tabs[i].id != id
  {
    FirstIndex(tabs, (t: Tab) => t.id == id)
  }

  /** `currentProject`: nothing for a missing or empty current id, otherwise
      the first project with that id. */
  function CurrentProject(ps: seq<Project>, current: Option<string>): (r: Option<Project>)
    ensures !Truthy(current) ==> r == None
    ensures Truthy(current) ==> (r.Some? <==> exists i :: 0 <= i < |ps| && ps[i].id == current.value)
    ensures r.Some? ==> r.value in ps && Some(r.value.id) == current
  {
    if !Truthy(current) then None
    else
      var k := FindProject(ps, current.value);
      if k < |ps| then Some(ps[k]) else None
  }

  function UpdatedKey(p: Project): real
  {
    p.updatedAt as real
  }

  /** `sortedProjects`, the list the store exposes: newest update first. */
  function Listed(ps: seq<Project>): (r: seq<Project>)
    ensures SortedDesc(r, UpdatedKey)
    ensures multiset(r) == multiset(ps)
  {
    SortDesc(ps, UpdatedKey)
  }

  // ---------------------------------------------------------------- saving

  /** The list after a save without a current project: the new project in
      front, cut back to `MaxProjects`. */
  function SaveNew(ps: seq<Project>, p: Project): (r: seq<Project>)
    ensures |r| == if |ps| < MaxProjects then |ps| + 1 else MaxProjects
    ensures r[0] == p
    ensures r[1..] == ps[..|r| - 1]
  {
    var all := [p] + ps;
    if |all| > MaxProjects then all[..MaxProjects] else all
  }

  /** A new save is the current project afterwards, since it is the first
      with its id. */
  lemma {:induction false} SaveNewIsCurrent(ps: seq<Project>, p: Project)
    requires p.id != ""
    ensures CurrentProject(SaveNew(ps, p), Some(p.id)) == Some(p)
  {
    assert FindProject(SaveNew(ps, p), p.id) == 0;
  }

  /** An update of the current project: only its name, data and update time
      change. */
  function Overwrite(ps: seq<Project>, id: string, name: string, data: Data, timestamp: nat): (r: seq<Project>)
    ensures |r| == |ps|
    ensures forall i :: 0 <= i < |ps| && i != FindProject(ps, id) ==> r[i] == ps[i]
    ensures FindProject(ps, id) < |ps| ==>
      var k := FindProject(ps, id);
      r[k].id == ps[k].id && r[k].createdAt == ps[k].createdAt && r[k].thumbnail == ps[k].thumbnail &&
      r[k].name == name && r[k].data == data && r[k].updatedAt == timestamp
  {
    var k := FindProject(ps, id);
    if k < |ps| then ps[k := ps[k].(name := name, data := data, updatedAt := timestamp)] else ps
  }

  /** Saving while the current id names no stored project (after
      `createNewProject`, say) stores nothing. */
  lemma {:induction false} OverwriteUnknownStoresNothing(ps: seq<Project>, id: string, name: string, data: Data, timestamp: nat)
    requires forall p | p in ps :: p.id != id
    ensures Overwrite(ps, id, name, data, timestamp) == ps
  {
    assert FindProject(ps, id) == |ps|;
  }

  // ---------------------------------------------------------------- tabs

  /** The tab change of `loadProject`: a tab is added only when none has the id. */
  function OpenTab(tabs: seq<Tab>, id: string, name: string): (r: seq<Tab>)
    ensures FindTab(tabs, id) < |tabs| ==> r == tabs
    ensures FindTab(tabs, id) == |tabs| ==> r == tabs + [Tab(id, name, false)]
  {
    if FindTab(tabs, id) < |tabs| then tabs else tabs + [Tab(id, name, false)]
  }

  /** The tab change of `closeProject`: the first tab with the id goes. */
  function CloseTab(tabs: seq<Tab>, id: string): (r: seq<Tab>)
    ensures FindTab(tabs, id) == |tabs| ==> r == tabs
    ensures FindTab(tabs, id) < |tabs| ==> r == RemoveAt(tabs, FindTab(tabs, id))
  {
    var k := FindTab(tabs, id);
    if k < |tabs| then RemoveAt(tabs, k) else tabs
  }

  /** Opening a project that has no tab and closing it again restores the tabs;
      opening an open project again changes nothing. */
  lemma {:induction false} OpenThenClose(tabs: seq<Tab>, id: string, name: string)
    ensures FindTab(tabs, id) == |tabs| ==> CloseTab(OpenTab(tabs, id, name), id) == tabs
    ensures OpenTab(OpenTab(tabs, id, name), id, name) == OpenTab(tabs, id, name)
  {
    if FindTab(tabs, id) == |tabs| {
      var withTab := tabs + [Tab(id, name, false)];
      assert withTab[|tabs|].id == id;
      assert FindTab(withTab, id) == |tabs|;
    }
  }

  /** The current id after `closeProject(id)` removed a tab: the last tab
      left when the closed project was current, nothing when no tab is left,
      and otherwise the same. */
  function CurrentAfterClose(remaining: seq<Tab>, current: Option<string>, id: string): (r: Option<string>)
    ensures current != Some(id) ==> r == current
    ensures current == Some(id) && remaining == [] ==> r == None
    ensures current == Some(id) && remaining != [] ==> r == Some(remaining[|remaining| - 1].id)
  {
    if current == Some(id) then
      if |remaining| > 0 then Some(remaining[|remaining| - 1].id) else None
    else current
  }

  /** `markUnsaved` / `markSaved`: set the flag of the first tab with the id. */
  function SetUnsaved(tabs: seq<Tab>, id: string, unsaved: bool): (r: seq<Tab>)
    ensures |r| == |tabs|
    ensures forall i :: 0 <= i < |tabs| ==> r[i].id == tabs[i].id && r[i].name == tabs[i].name
    ensures forall i :: 0 <= i < |tabs| && i != FindTab(tabs, id) ==> r[i] == tabs[i]
    ensures FindTab(tabs, id) < |tabs| ==> r[FindTab(tabs, id)].unsaved == unsaved
  {
    var k := FindTab(tabs, id);
    if k < |tabs| then tabs[k := tabs[k].(unsaved := unsaved)] else tabs
  }

  /** The last mark wins, and marking a saved tab unsaved and then saved gives
      the tabs back. */
  lemma {:induction false} MarkLaws(tabs: seq<Tab>, id: string, a: bool, b: bool)
    ensures SetUnsaved(SetUnsaved(tabs, id, a), id, b) == SetUnsaved(tabs, id, b)
    ensures (FindTab(tabs, id) < |tabs| ==> !tabs[FindTab(tabs, id)].unsaved) ==>
      SetUnsaved(SetUnsaved(tabs, id, true), id, false) == tabs
  {
    FindTabStable(tabs, SetUnsaved(tabs, id, a), id);
    FindTabStable(tabs, SetUnsaved(tabs, id, true), id);
  }

  /** Changing tabs without changing their ids does not move `FindTab`. */
  lemma FindTabStable(tabs: seq<Tab>, ms: seq<Tab>, id: string)
    requires |ms| == |tabs|
    requires forall i :: 0 <= i < |tabs| ==> ms[i].id == tabs[i].id
    ensures FindTab(ms, id) == FindTab(tabs, id)
  {
    var k, m := FindTab(tabs, id), FindTab(ms, id);
    if k < |tabs| { assert ms[k].id == id; }
    if m < |ms| { assert tabs[m].id == id; }
  }

  // ---------------------------------------------------------------- the store

  class ProjectStore {
    var projects: seq<Project>
    var current: Option<string>
    var tabs: seq<Tab>

    constructor()
      ensures projects == [] && current == None && tabs == []
    {
      projects := [];
      current := None;
      tabs := [];
    }

    /** `saveProject`: update the current project, or, when there is none,
        put a new one in front and make it current; returns the current id.
        `localeNow` is the clock's locale text used in the default name. */
    method SaveProject(data: Data, projectName: Option<string>, timestamp: nat, localeNow: string) returns (r: Option<string>)
      modifies this
      ensures var name := OrElse(projectName, "Project " + localeNow);
        if Truthy(old(current)) then
          projects == Overwrite(old(projects), old(current).value, name, data, timestamp) && current == old(current)
        else
          projects == SaveNew(old(projects), Project(NewId(timestamp), name, data, timestamp, timestamp, None)) &&
          current == Some(NewId(timestamp))
      ensures |old(projects)| <= MaxProjects ==> |projects| <= MaxProjects
      ensures r == current && tabs == old(tabs)
    {
      var name := OrElse(projectName, "Project " + localeNow);
      if Truthy(current) {
        var k := FindProject(projects, current.value);
        if k < |projects| {
          projects := projects[k := projects[k].(name := name, data := data, updatedAt := timestamp)];
        }
      } else {
        var p := Project(NewId(timestamp), name, data, timestamp, timestamp, None);
        projects := [p] + projects;
        current := Some(p.id);
        if |projects| > MaxProjects {
          projects := projects[..MaxProjects];
        }
      }
      r := current;
    }

    /** `loadProject`: make a stored project current, open a tab for it when
        none is open, and return its data; an unknown id changes nothing. */
    method LoadProject(id: string) returns (r: Option<Data>)
      modifies this
      ensures var k := FindProject(old(projects), id);
        if k < |old(projects)| then
          r == Some(old(projects)[k].data) && current == Some(id) &&
          tabs == OpenTab(old(tabs), id, old(projects)[k].name)
        else
          r == None && current == old(current) && tabs == old(tabs)
      ensures projects == old(projects)
    {
      var k := FindProject(projects, id);
      if k < |projects| {
        current := Some(id);
        if FindTab(tabs, id) == |tabs| {
          tabs := tabs + [Tab(projects[k].id, projects[k].name, false)];
        }
        r := Some(projects[k].data);
      } else {
        r := None;
      }
    }

    /** `switchToProject`: like `loadProject` but without touching the tabs. */
    method SwitchToProject(id: string) returns (r: Option<Data>)
      modifies this
      ensures var k := FindProject(old(projects), id);
        if k < |old(projects)| then r == Some(old(projects)[k].data) && current == Some(id)
        else r == None && current == old(current)
      ensures projects == old(projects) && tabs == old(tabs)
    {
      var k := FindProject(projects, id);
      if k < |projects| {
        current := Some(id);
        r := Some(projects[k].data);
      } else {
        r := None;
      }
    }

    /** `closeProject`: remove the tab; a current project passes the focus to
        the last remaining tab. A project without a tab gives false. */
    method CloseProject(id: string) returns (closed: bool)
      modifies this
      ensures closed <==> FindTab(old(tabs), id) < |old(tabs)|
      ensures tabs == CloseTab(old(tabs), id)
      ensures current == if closed then CurrentAfterClose(tabs, old(current), id) else old(current)
      ensures projects == old(projects)
    {
      var k := FindTab(tabs, id);
      if k < |tabs| {
        tabs := RemoveAt(tabs, k);
        if current == Some(id) {
          if |tabs| > 0 {
            current := Some(tabs[|tabs| - 1].id);
          } else {
            current := None;
          }
        }
        closed := true;
      } else {
        closed := false;
      }
    }

    /** `markUnsaved` */
    method MarkUnsaved(id: string)
      modifies this
      ensures tabs == SetUnsaved(old(tabs), id, true)
      ensures projects == old(projects) && current == old(current)
    {
      var k := FindTab(tabs, id);
      if k < |tabs| {
        tabs := tabs[k := tabs[k].(unsaved := true)];
      }
    }

    /** `markSaved` */
    method MarkSaved(id: string)
      modifies this
      ensures tabs == SetUnsaved(old(tabs), id, false)
      ensures projects == old(projects) && current == old(current)
    {
      var k := FindTab(tabs, id);
      if k < |tabs| {
        tabs := tabs[k := tabs[k].(unsaved := false)];
      }
    }

    /** `deleteProject`: remove the first project with the id and clear the
        current id when it was that project; the tabs stay as they are. */
    method DeleteProject(id: string) returns (deleted: bool)
      modifies this
      ensures deleted <==> FindProject(old(projects), id) < |old(projects)|
      ensures deleted ==> (projects == RemoveAt(old(projects), FindProject(old(projects), id)) &&
        current == (if old(current) == Some(id) then None else old(current)))
      ensures !deleted ==> projects == old(projects) && current == old(current)
      ensures tabs == old(tabs)
    {
      var k := FindProject(projects, id);
      if k < |projects| {
        projects := RemoveAt(projects, k);
        if current == Some(id) {
          current := None;
        }
        deleted := true;
      } else {
        deleted := false;
      }
    }

    /** `renameProject`: a new name and update time for a stored project. */
    method RenameProject(id: string, newName: string, now: nat) returns (renamed: bool)
      modifies this
      ensures renamed <==> FindProject(old(projects), id) < |old(projects)|
      ensures renamed ==>
        var k := FindProject(old(projects), id);
        projects == old(projects)[k := old(projects)[k].(name := newName, updatedAt := now)]
      ensures !renamed ==> projects == old(projects)
      ensures current == old(current) && tabs == old(tabs)
    {
      var k := FindProject(projects, id);
      if k < |projects| {
        projects := projects[k := projects[k].(name := newName, updatedAt := now)];
        renamed := true;
      } else {
        renamed := false;
      }
    }

    /** `updateThumbnail` */
    method UpdateThumbnail(id: string, thumbnail: string) returns (updated: bool)
      modifies this
      ensures updated <==> FindProject(old(projects), id) < |old(projects)|
      ensures updated ==>
        var k := FindProject(old(projects), id);
        projects == old(projects)[k := old(projects)[k].(thumbnail := Some(thumbnail))]
      ensures !updated ==> projects == old(projects)
      ensures current == old(current) && tabs == old(tabs)
    {
      var k := FindProject(projects, id);
      if k < |projects| {
        projects := projects[k := projects[k].(thumbnail := Some(thumbnail))];
        updated := true;
      } else {
        updated := false;
      }
    }

    /** `duplicateProject`: a copy named "<name> (Copy)" goes in front, with
        the same data and thumbnail and fresh timestamps. No cut to
        `MaxProjects` is made here. */
    method DuplicateProject(id: string, timestamp: nat) returns (r: Option<string>)
      modifies this
      ensures var k := FindProject(old(projects), id);
        if k < |old(projects)| then
          var src := old(projects)[k];
          r == Some(NewId(timestamp)) &&
          projects == [Project(NewId(timestamp), src.name + " (Copy)", src.data, timestamp, timestamp, src.thumbnail)] + old(projects)
        else r == None && projects == old(projects)
      ensures current == old(current) && tabs == old(tabs)
    {
      var k := FindProject(projects, id);
      if k < |projects| {
        var src := projects[k];
        var copy := Project(NewId(timestamp), src.name + " (Copy)", src.data, timestamp, timestamp, src.thumbnail);
        projects := [copy] + projects;
        r := Some(copy.id);
      } else {
        r := None;
      }
    }

    /** `createNewProject`: an unsaved "Untitled <n>" tab becomes current; the
        project list is not touched. */
    method CreateNewProject(timestamp: nat) returns (id: string)
      modifies this
      ensures id == NewId(timestamp)
      ensures tabs == old(tabs) + [Tab(id, "Untitled " + NatToString(|old(tabs)| + 1), true)]
      ensures current == Some(id) && projects == old(projects)
    {
      id := NewId(timestamp);
      tabs := tabs + [Tab(id, "Untitled " + NatToString(|tabs| + 1), true)];
      current := Some(id);
    }
  }
}
