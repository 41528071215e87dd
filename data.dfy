/**
 * The constant data the screens start from: the inspection tabs, the
 * collaborator roles, the default checklist, the projects, the to-do list and
 * the mock inspections.
 */
module Data {
  import opened Js
  import opened Questions

  datatype Tab = Tab(id: string, caption: string)

  /** The four inspection tabs, `"active"` first. */
  function InspectionTabs(): (r: seq<Tab>)
    ensures |r| == 4
    ensures r[0].id == "active" && r[1].id == "pending" && r[2].id == "paused" && r[3].id == "done"
  {
    [Tab("active", "Active"), Tab("pending", "Pending"), Tab("paused", "Paused"), Tab("done", "Done")]
  }

  /** The tab ids, in tab order. */
  function TabIds(): (r: seq<string>)
    ensures r == ["active", "pending", "paused", "done"]
  {
    var tabs := InspectionTabs();
    [tabs[0].id, tabs[1].id, tabs[2].id, tabs[3].id]
  }

  /** The collaborator roles offered in the second step. */
  function Roles(): (r: seq<string>)
    ensures |r| == 5 && forall i :: 0 <= i < |r| ==> r[i] != ""
    ensures forall i, j :: 0 <= i < j < |r| ==> r[i] != r[j]
    ensures "Site Manager" in r && "Foreman" in r
  {
    ["Developer", "Site Manager", "Engineer", "Architect", "Foreman"]
  }

  /** The checklist types offered in the first step. */
  function ChecklistTypes(): (r: seq<string>)
    ensures |r| == 5 && forall i :: 0 <= i < |r| ==> r[i] != ""
    ensures forall i, j :: 0 <= i < j < |r| ==> r[i] != r[j]
    ensures "Structural" in r && "Safety" in r
  {
    ["Structural", "Finishing", "Safety", "Electrical", "Plumbing"]
  }

  /**
   * The default checklist: ids 1 to 4 in display order, nothing completed,
   * options only on the radio and select questions, answers `null` except the
   * text question's `""`, proof required exactly for ids 1 and 3.
   */
  function DefaultQuestions(): (r: seq<Question>)
    ensures |r| == 4
    ensures forall i :: 0 <= i < |r| ==> r[i].id == i + 1
    ensures forall i :: 0 <= i < |r| ==> !r[i].isCompleted
    ensures forall i :: 0 <= i < |r| ==> (r[i].options.Some? <==> r[i].kind == Radio || r[i].kind == Select)
    ensures forall i :: 0 <= i < |r| ==> r[i].answer == (if r[i].kind == Text then Str("") else Null)
    ensures forall i :: 0 <= i < |r| ==> (r[i].requiredProof <==> r[i].id == 1 || r[i].id == 3)
    ensures forall i :: 0 <= i < |r| ==> r[i].comment == "" && r[i].proof == None
    ensures forall i :: 0 <= i < |r| ==> Fits(r[i])
  {
    [
      Question(1, "Is the foundation leveled correctly?", Radio, Some(["Yes", "No", "N/A"]),
               Null, "", None, true, false),
      Question(2, "Enter the measured width (meters):", Text, None,
               Str(""), "", None, false, false),
      Question(3, "Material quality verification status:", Select, Some(["Approved", "Pending", "Rejected"]),
               Null, "", None, true, false),
      Question(4, "Are safety barriers in place?", Boolean, None,
               Null, "", None, false, false)
    ]
  }

  /** Distinct default ids: an id names exactly one default question. */
  lemma DefaultIdsDistinct(i: int, j: int)
    requires 0 <= i < |DefaultQuestions()| && 0 <= j < |DefaultQuestions()|
    ensures DefaultQuestions()[i].id == DefaultQuestions()[j].id <==> i == j
  {
  }

  /**
   * The comment rule is reachable from the defaults: `'No'` is an option of
   * question 1 and `'Rejected'` of question 3, and both are negative answers.
   */
  lemma NegativeOptionsOffered()
    ensures "No" in DefaultQuestions()[0].options.value && IsNegative(Str("No"))
    ensures "Rejected" in DefaultQuestions()[2].options.value && IsNegative(Str("Rejected"))
  {
    assert DefaultQuestions()[0].options.value[1] == "No";
    assert DefaultQuestions()[2].options.value[2] == "Rejected";
  }

  datatype Project = Project(id: string, name: string, location: string, completed: int, icon: string)

  /** The four projects, ids `"1"` to `"4"`. */
  function Projects(): (r: seq<Project>)
    ensures |r| == 4
    ensures r[0].id == "1" && r[1].id == "2" && r[2].id == "3" && r[3].id == "4"
  {
    [
      Project("1", "Skyline Tower", "New York, NY", 75, "building"),
      Project("2", "River Bridge", "London, UK", 33, "bridge"),
      Project("3", "Metro Station", "Tokyo, JP", 52, "metro"),
      Project("4", "City Mall", "Dubai, UAE", 90, "mall")
    ]
  }

  datatype TodoSeed = TodoSeed(id: nat, title: string, status: string, time: string, icon: string, color: string)

  /** The seeded to-do list: one completed, one pending, one overdue task. */
  function TodoList(): (r: seq<TodoSeed>)
    ensures |r| == 3
    ensures r[0].status == "completed" && r[1].status == "pending" && r[2].status == "overdue"
    ensures forall i :: 0 <= i < |r| ==> r[i].id == i + 1
  {
    [
      TodoSeed(1, "Inspect Site A foundation", "completed", "Completed 2h ago", "check", "#10B981"),
      TodoSeed(2, "Review safety report", "pending", "Due Today, 5:00 PM", "clock", "#F59E0B"),
      TodoSeed(3, "Approve material request", "overdue", "Overdue", "alert", "#EF4444")
    ]
  }

  /** A mock inspection; the done items carry no deadline. */
  datatype InspectionItem = InspectionItem(
    id: nat, status: string, title: string, subtitle: string, date: string, deadline: Option<string>)

  /** The mock inspections: ids strictly increasing, every status a tab id. */
  function MockInspections(): (r: seq<InspectionItem>)
    ensures |r| == 22
    ensures forall i :: 0 < i < |r| ==> r[i - 1].id < r[i].id
    ensures forall i :: 0 <= i < |r| ==> r[i].status in TabIds()
  {
    [
      InspectionItem(1, "active", "QC #1001", "Flooring Check", "Dec 12, 2024", Some("14:00")),
      InspectionItem(2, "active", "QC #1002", "Electrical Wiring", "Dec 12, 2024", Some("16:30")),
      InspectionItem(3, "active", "QC #1003", "Safety Barriers", "Dec 13, 2024", Some("10:00")),
      InspectionItem(4, "pending", "QC #1004", "Plumbing Initial", "Dec 11, 2024", Some("Overdue")),
      InspectionItem(5, "pending", "QC #1005", "Foundation Pour", "Dec 11, 2024", Some("Overdue")),
      InspectionItem(6, "paused", "QC #1006", "Roofing Layers", "Dec 10, 2024", Some("Paused")),
      InspectionItem(7, "done", "QC #1007", "Excavation", "Dec 01, 2024", None),
      InspectionItem(8, "done", "QC #1008", "Site Fencing", "Nov 28, 2024", None),
      InspectionItem(9, "done", "QC #1009", "Crane Setup", "Nov 25, 2024", None),
      InspectionItem(12, "active", "QC #1012", "Rebar Check", "Dec 14, 2024", Some("09:00")),
      InspectionItem(13, "active", "QC #1013", "Concrete Pour A", "Dec 14, 2024", Some("11:00")),
      InspectionItem(14, "active", "QC #1014", "Concrete Pour B", "Dec 14, 2024", Some("13:00")),
      InspectionItem(15, "active", "QC #1015", "Formwork Verify", "Dec 14, 2024", Some("15:00")),
      InspectionItem(16, "pending", "QC #1016", "HVAC Ducting", "Dec 10, 2024", Some("Overdue")),
      InspectionItem(17, "pending", "QC #1017", "Fire Safety", "Dec 09, 2024", Some("Overdue")),
      InspectionItem(18, "pending", "QC #1018", "Waterproofing", "Dec 08, 2024", Some("Overdue")),
      InspectionItem(19, "paused", "QC #1019", "Paint Layer 1", "Dec 05, 2024", Some("Paused")),
      InspectionItem(20, "paused", "QC #1020", "Paint Layer 2", "Dec 06, 2024", Some("Paused")),
      InspectionItem(21, "done", "QC #1021", "Site Clearing", "Nov 10, 2024", None),
      InspectionItem(22, "done", "QC #1022", "Perimeter Wall", "Nov 08, 2024", None),
      InspectionItem(23, "done", "QC #1023", "Gate Install", "Nov 05, 2024", None),
      InspectionItem(24, "done", "QC #1024", "Soil Testing", "Nov 01, 2024", None)
    ]
  }

  /** Adjacent ids increasing makes every pair of ids distinct. */
  lemma {:induction false} IncreasingIdsDistinct(s: seq<InspectionItem>, i: int, j: int)
    requires forall k :: 0 < k < |s| ==> s[k - 1].id < s[k].id
    requires 0 <= i < j < |s|
    ensures s[i].id < s[j].id
    decreases j - i
  {
    if i + 1 < j {
      IncreasingIdsDistinct(s, i + 1, j);
    }
  }

  /** No two mock inspections share an id. */
  lemma MockInspectionIdsDistinct(i: int, j: int)
    requires 0 <= i < |MockInspections()| && 0 <= j < |MockInspections()| && i != j
    ensures MockInspections()[i].id != MockInspections()[j].id
  {
    if i < j {
      IncreasingIdsDistinct(MockInspections(), i, j);
    } else {
      IncreasingIdsDistinct(MockInspections(), j, i);
    }
  }
}
