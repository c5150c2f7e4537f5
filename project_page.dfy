/** The project list page: the title search, the six default cards of a new project, and how the
    local `projects` list follows the outcomes of the backend calls. */
module ProjectPage {
  import opened Wrappers
  import opened Seqs
  import opened Text

  type Id = string

  /** A project row as the page keeps it. */
  datatype Project = Project(id: Id, title: string, description: string)

  /** The row sent to the `projects` table when a project is created; `userId` is `user?.id`. */
  datatype ProjectInsert = ProjectInsert(title: string, description: string, userId: Option<Id>)

  /** A row sent to the `cards` table. */
  datatype CardRow = CardRow(projectId: Id, text: string, sortOrder: int)

  /** The patch the auto-save sends to the `projects` row with id `id`. */
  datatype ProjectPatch = ProjectPatch(id: Id, title: string, description: string)

  const DefaultTitle: string := "Untitled Project"
  const DefaultDescription: string := "Start writing your ideas here..."
  const DefaultCardCount: nat := 6

  /** The search matches a project when its lower-cased title includes the lower-cased query. */
  predicate Matches(p: Project, query: string)
  {
    Contains(Lower(p.title), Lower(query))
  }

  function MatchesQuery(query: string): (keep: Project -> bool)
    ensures forall p :: keep(p) <==> Matches(p, query)
  {
    (p: Project) => Matches(p, query)
  }

  /** `filteredProjects`: the projects the search keeps, in list order. */
  function Search(projects: seq<Project>, query: string): (r: seq<Project>)
    ensures forall p :: p in r <==> p in projects && Matches(p, query)
  {
    Filter(projects, MatchesQuery(query))
  }

  /** The empty query shows every project. */
  lemma SearchEmpty(projects: seq<Project>)
    ensures Search(projects, "") == projects
  {
    assert Lower("") == "";
    forall p | p in projects ensures Matches(p, "") {
      assert Lower(p.title)[..0] == "";
    }
    FilterAll(projects, MatchesQuery(""));
  }

  /** The search is blind to the case of the query. */
  lemma SearchCaseInsensitive(projects: seq<Project>, query: string)
    ensures Search(projects, Lower(query)) == Search(projects, query)
  {
    LowerIdempotent(query);
    FilterSamePredicate(projects, MatchesQuery(Lower(query)), MatchesQuery(query));
  }

  /** Two matching projects appear in the result in the order of the list. */
  lemma SearchKeepsOrder(projects: seq<Project>, query: string, i: int, j: int)
    requires 0 <= i < j < |projects| && Matches(projects[i], query) && Matches(projects[j], query)
    ensures exists i', j' ::
              0 <= i' < j' < |Search(projects, query)| &&
              Search(projects, query)[i'] == projects[i] && Search(projects, query)[j'] == projects[j]
  {
    FilterKeepsOrder(projects, MatchesQuery(query), i, j);
    var r := Search(projects, query);
    var i', j' :| 0 <= i' < j' < |r| && r[i'] == projects[i] && r[j'] == projects[j];
  }

  /** Appending a project to the list appends it to the result exactly when it matches. */
  lemma SearchAppend(projects: seq<Project>, p: Project, query: string)
    ensures Search(projects + [p], query) == Search(projects, query) + (if Matches(p, query) then [p] else [])
  {
    FilterConcat(projects, [p], MatchesQuery(query));
    assert [p][1..] == [];
  }

  /** The filter predicate of `deleteProject(id)`: the project's id differs from `id`. */
  function KeepOthers(id: Id): (keep: Project -> bool)
    ensures forall p :: keep(p) <==> p.id != id
  {
    (p: Project) => p.id != id
  }

  /** The list a successful `deleteProject(id)` leaves. */
  function WithoutProject(projects: seq<Project>, id: Id): (r: seq<Project>)
    ensures forall p :: p in r <==> p in projects && p.id != id
  {
    Filter(projects, KeepOthers(id))
  }

  /** Deleting is idempotent. */
  lemma WithoutProjectIdempotent(projects: seq<Project>, id: Id)
    ensures WithoutProject(WithoutProject(projects, id), id) == WithoutProject(projects, id)
  {
    FilterIdempotent(projects, KeepOthers(id));
  }

  /** Deleting an id no project carries leaves the list as it was. */
  lemma WithoutProjectAbsent(projects: seq<Project>, id: Id)
    requires forall k :: 0 <= k < |projects| ==> projects[k].id != id
    ensures WithoutProject(projects, id) == projects
  {
    forall p | p in projects ensures p.id != id {
      var k :| 0 <= k < |projects| && projects[k] == p;
    }
    FilterAll(projects, KeepOthers(id));
  }

  /** The projects that remain keep their relative order. */
  lemma WithoutProjectKeepsOrder(projects: seq<Project>, id: Id, i: int, j: int)
    requires 0 <= i < j < |projects| && projects[i].id != id && projects[j].id != id
    ensures exists i', j' ::
              0 <= i' < j' < |WithoutProject(projects, id)| &&
              WithoutProject(projects, id)[i'] == projects[i] && WithoutProject(projects, id)[j'] == projects[j]
  {
    FilterKeepsOrder(projects, KeepOthers(id), i, j);
    var r := WithoutProject(projects, id);
    var i', j' :| 0 <= i' < j' < |r| && r[i'] == projects[i] && r[j'] == projects[j];
  }

  /** The visible projects after a deletion are the visible projects before it, minus the deleted id. */
  lemma SearchAfterDelete(projects: seq<Project>, id: Id, query: string)
    ensures Search(WithoutProject(projects, id), query) == WithoutProject(Search(projects, query), id)
  {
    FilterCommute(projects, KeepOthers(id), MatchesQuery(query));
  }

  /** `defaultCards`: six rows for the new project, with empty text and sort orders 1 to 6. */
  function DefaultCards(projectId: Id): (rows: seq<CardRow>)
    ensures |rows| == DefaultCardCount
    ensures forall k :: 0 <= k < |rows| ==> rows[k].projectId == projectId && rows[k].text == ""
    ensures forall k :: 0 <= k < |rows| ==> 1 <= rows[k].sortOrder <= DefaultCardCount
    ensures forall j, k :: 0 <= j < k < |rows| ==> rows[j].sortOrder < rows[k].sortOrder
  {
    seq(DefaultCardCount, i => CardRow(projectId, "", i + 1))
  }

  /** The page state that the model keeps: the loaded project list and the search box. */
  class ProjectList {
    var projects: seq<Project>
    var search: string

    /** The page starts with no projects and an empty search. */
    constructor ()
      ensures projects == [] && search == ""
    {
      projects := [];
      search := "";
    }

    /** The projects the page renders. */
    function Visible(): (r: seq<Project>)
      reads this
      ensures forall p :: p in r <==> p in projects && Matches(p, search)
    {
      Search(projects, search)
    }

    /** Typing in the search box. */
    method SetSearch(query: string)
      modifies this
      ensures search == query && projects == old(projects)
    {
      search := query;
    }

    /** `loadProjects`: the selected rows replace the list; on an error the list is kept. */
    method LoadProjects(selected: Remote<seq<Project>>)
      modifies this
      ensures projects == (if selected.Ok? then selected.value else old(projects))
      ensures search == old(search)
    {
      if selected.Ok? {
        projects := selected.value;
      }
    }

    /** `createNewProject`: `inserted` is the backend's answer to the insert of `request`, and
        `cardsInserted` its answer to the insert of `cardsSent`. A failed project insert changes nothing
        and sends no cards; otherwise the six default cards are sent and the project is appended,
        whatever became of the cards. */
    method CreateNewProject(userId: Option<Id>, inserted: Remote<Project>, cardsInserted: Remote<()>)
      returns (request: ProjectInsert, cardsSent: Option<seq<CardRow>>)
      modifies this
      ensures request == ProjectInsert(DefaultTitle, DefaultDescription, userId)
      ensures inserted.Err? ==> projects == old(projects) && cardsSent == None
      ensures inserted.Ok? ==> projects == old(projects) + [inserted.value]
      ensures inserted.Ok? ==> cardsSent == Some(DefaultCards(inserted.value.id))
      ensures search == old(search)
    {
      request := ProjectInsert(DefaultTitle, DefaultDescription, userId);
      if inserted.Err? {
        cardsSent := None;
        return;
      }
      var project := inserted.value;
      cardsSent := Some(DefaultCards(project.id));
      projects := projects + [project];
    }

    /** `deleteProject(id)`: on success every project with that id is dropped, the others keep their
        order; on failure the list is kept. */
    method DeleteProject(id: Id, deleted: Remote<()>)
      modifies this
      ensures projects == (if deleted.Ok? then WithoutProject(old(projects), id) else old(projects))
      ensures search == old(search)
    {
      if deleted.Err? {
        return;
      }
      projects := WithoutProject(projects, id);
    }

    /** `updateProject`: sends one patch with the id, title and description together. It changes no
        page state whatever the outcome (the method may modify nothing). */
    method UpdateProject(id: Id, title: string, description: string, updated: Remote<()>)
      returns (patch: ProjectPatch)
      ensures patch.id == id && patch.title == title && patch.description == description
    {
      patch := ProjectPatch(id, title, description);
    }
  }
}
