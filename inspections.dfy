/**
 * The inspections list screen: a project picker, status tabs over the mock
 * inspections, and the navigation into the inspection form.
 */
module Inspections {
  import opened Js
  import opened Data
  import InspectionForm

  /** The predicate of the tab filter. */
  function HasStatus(tab: string): InspectionItem -> bool {
    (it: InspectionItem) => it.status == tab
  }

  /** `MOCK_INSPECTIONS.filter(i => i.status === activeTab)`. */
  function ByTab(items: seq<InspectionItem>, tab: string): seq<InspectionItem> {
    Filter(items, HasStatus(tab))
  }

  /** The list is exactly the items with the tab's status, in their original order. */
  lemma ByTabExact(items: seq<InspectionItem>, tab: string, x: InspectionItem)
    ensures Subsequence(ByTab(items, tab), items)
    ensures forall i :: 0 <= i < |ByTab(items, tab)| ==> ByTab(items, tab)[i].status == tab
    ensures x in ByTab(items, tab) <==> x in items && x.status == tab
  {
    FilterIsSubsequence(items, HasStatus(tab));
    FilterMembership(items, HasStatus(tab), x);
  }

  /** Every mock inspection is listed under exactly one tab: the one named by its status. */
  lemma TabsPartitionMock(x: InspectionItem, tab: string)
    requires x in MockInspections() && tab in TabIds()
    ensures x in ByTab(MockInspections(), tab) <==> tab == x.status
    ensures x.status in TabIds()
  {
    ByTabExact(MockInspections(), tab, x);
  }

  /** The route parameters the form is opened with. */
  datatype FormParams = FormParams(inspectionId: string, initialStatus: string)

  /**
   * `handleInspectionPress(id, status)`: a done item opens nothing; any other
   * opens the form with the id as text and the status.
   */
  function PressTarget(id: nat, status: string): (r: Option<FormParams>)
    ensures r == None <==> status == "done"
    ensures r.Some? ==> r.value.inspectionId == NatToString(id) && r.value.initialStatus == status
  {
    if status == "done" then None else Some(FormParams(NatToString(id), status))
  }

  /** An item opened from the list starts the form at step 1: its id text is never empty. */
  lemma PressedItemStartsAtStepOne(id: nat, status: string)
    requires status != "done"
    ensures InspectionForm.InitialStep(Some(PressTarget(id, status).value.inspectionId)) == 1
  {
  }

  /** `handleNewInspection` passes no parameters, so the form starts at step 0. */
  lemma NewInspectionStartsAtStepZero()
    ensures InspectionForm.InitialStep(None) == 0
  {
  }

  /** `PROJECTS.find(p => p.id === id)`: the first project with that id, if any. */
  function FindProject(projects: seq<Project>, id: string): (r: Option<Project>)
    ensures r.Some? ==> r.value in projects && r.value.id == id
    ensures r == None <==> forall i :: 0 <= i < |projects| ==> projects[i].id != id
    ensures r.Some? ==> exists k :: 0 <= k < |projects| && projects[k] == r.value
                                    && forall i :: 0 <= i < k ==> projects[i].id != id
  {
    if projects == [] then None
    else if projects[0].id == id then Some(projects[0])
    else
      var r := FindProject(projects[1..], id);
      if r.Some? then
        var k :| 0 <= k < |projects[1..]| && projects[1..][k] == r.value
                 && forall i :: 0 <= i < k ==> projects[1..][i].id != id;
        assert projects[k + 1] == r.value;
        r
      else r
  }

  /** The screen's state cells. */
  class InspectionScreen {
    var selectedProject: Project
    var dropdownOpen: bool
    var activeTab: string

    /** The first project, the dropdown closed, the first tab. */
    constructor ()
      ensures selectedProject == Projects()[0] && !dropdownOpen && activeTab == "active"
    {
      selectedProject := Projects()[0];
      dropdownOpen := false;
      activeTab := InspectionTabs()[0].id;
    }

    /** The project dropdown's header toggles it. */
    method ToggleDropdown()
      modifies this`dropdownOpen
      ensures dropdownOpen == !old(dropdownOpen)
    {
      dropdownOpen := !dropdownOpen;
    }

    /** `selectProject`: the project is selected and the dropdown closes. */
    method SelectProject(p: Project)
      modifies this`selectedProject, this`dropdownOpen
      ensures selectedProject == p && !dropdownOpen
    {
      selectedProject := p;
      dropdownOpen := false;
    }

    /** A tab press. */
    method SetActiveTab(tab: string)
      modifies this`activeTab
      ensures activeTab == tab
    {
      activeTab := tab;
    }

    /**
     * The effect on route parameters: a truthy `projectId` selects the project
     * with that id when there is one, and an unknown id leaves the selection; a
     * truthy `activeTab` switches the tab.
     */
    method ApplyRouteParams(projectId: Option<string>, tab: Option<string>)
      modifies this`selectedProject, this`activeTab
      ensures Present(projectId) && FindProject(Projects(), projectId.value).Some? ==>
                selectedProject == FindProject(Projects(), projectId.value).value
      ensures !(Present(projectId) && FindProject(Projects(), projectId.value).Some?) ==>
                selectedProject == old(selectedProject)
      ensures activeTab == if Present(tab) then tab.value else old(activeTab)
    {
      if Present(projectId) {
        var found := FindProject(Projects(), projectId.value);
        if found.Some? {
          selectedProject := found.value;
        }
      }
      if Present(tab) {
        activeTab := tab.value;
      }
    }

    /** The inspections listed under the current tab. */
    function Listed(): (r: seq<InspectionItem>)
      reads this
      ensures |r| <= |MockInspections()|
      ensures forall i :: 0 <= i < |r| ==> r[i].status == activeTab
    {
      ByTab(MockInspections(), activeTab)
    }
  }

  /** A project id from the route that matches the second project selects it. */
  method RouteSelectsProject() returns (s: InspectionScreen)
    ensures s.selectedProject == Projects()[1]
  {
    s := new InspectionScreen();
    s.ApplyRouteParams(Some("2"), None);
  }

  /** An unknown project id keeps the first project. */
  method UnknownProjectKeepsSelection() returns (s: InspectionScreen)
    ensures s.selectedProject == Projects()[0]
  {
    s := new InspectionScreen();
    s.ApplyRouteParams(Some("99"), Some("paused"));
  }

  /** Opening a listed item resumes the form at step 1; a new inspection starts at step 0. */
  method OpenForms(item: InspectionItem) returns (resumed: InspectionForm.Form, fresh0: InspectionForm.Form)
    requires item.status != "done"
    ensures resumed.step == 1 && fresh0.step == 0
  {
    var p := PressTarget(item.id, item.status).value;
    resumed := new InspectionForm.Form(Some(p.inspectionId));
    fresh0 := new InspectionForm.Form(None);
  }
}
