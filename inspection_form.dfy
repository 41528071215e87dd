/**
 * The five-step inspection wizard: a step cursor with per-step gates, a
 * clone-then-commit question editor, and the final submit that either saves
 * remotely or falls back to the offline sync queue.
 */
module InspectionForm {
  import opened Js
  import opened Questions
  import Data
  import opened Sync

  /** The wizard's steps, in order. */
  function Steps(): (r: seq<string>)
    ensures |r| == 5
  {
    ["Setup", "Collaborators", "Drawings", "Checklist", "Completion"]
  }

  /** `STEPS.length - 1`, the Completion step. */
  const LastStep: int := |Steps()| - 1

  /** The form opens at step 1 for an existing inspection (a truthy id) and at 0 otherwise. */
  function InitialStep(inspectionId: Option<string>): (s: int)
    ensures s == 0 || s == 1
    ensures s == 1 <==> Present(inspectionId)
  {
    if Present(inspectionId) then 1 else 0
  }

  /** What pressing Next does; every outcome but `Advanced` leaves the step where it is. */
  datatype NextOutcome =
    | Advanced
    | AtLastStep
    | TaskNameMissing
    | ChecklistTypeMissing
    | DiagramAnswerMissing
    | DiagramImageMissing

  function NextMessage(o: NextOutcome): string {
    match o
    case Advanced => ""
    case AtLastStep => ""
    case TaskNameMissing => "Please enter a Task Name."
    case ChecklistTypeMissing => "Please select a Checklist Type."
    case DiagramAnswerMissing => "Please answer if you have the diagram."
    case DiagramImageMissing => "Diagram image is mandatory."
  }

  /**
   * The decision of `handleNext` from the fields it reads. Step 0 needs a task
   * name (reported first) and a checklist type; step 2 needs an answer to "do
   * you have the diagram" and a diagram image, even when the answer is no;
   * steps 1 and 3 always advance; the last step never does.
   */
  function NextGate(step: int, taskName: string, checklistType: Option<string>,
                    hasDiagram: Option<bool>, diagramImage: Option<string>): (r: NextOutcome)
    ensures step == 0 && Blank(taskName) ==> r == TaskNameMissing
    ensures step == 0 && !Blank(taskName) && !Present(checklistType) ==> r == ChecklistTypeMissing
    ensures step == 2 && hasDiagram == None ==> r == DiagramAnswerMissing
    ensures step == 2 && hasDiagram.Some? && !Present(diagramImage) ==> r == DiagramImageMissing
    ensures step == 1 || step == 3 ==> r == Advanced
    ensures step >= LastStep ==> r == AtLastStep
    ensures r == Advanced <==>
              step < LastStep
              && (step == 0 ==> !Blank(taskName) && Present(checklistType))
              && (step == 2 ==> hasDiagram.Some? && Present(diagramImage))
  {
    if step == 0 && Blank(taskName) then TaskNameMissing
    else if step == 0 && !Present(checklistType) then ChecklistTypeMissing
    else if step == 2 && hasDiagram == None then DiagramAnswerMissing
    else if step == 2 && !Present(diagramImage) then DiagramImageMissing
    else if step < LastStep then Advanced
    else AtLastStep
  }

  /** Whether `saveQuestion` found an open question to save, and what became of it. */
  datatype SaveOutcome = NothingOpen | Refused(error: SaveError) | Saved

  /**
   * `questions.map(q => q.id === updated.id ? updated : q)`: every entry with
   * the saved copy's id is replaced by it; the rest, the length and the order
   * stay.
   */
  function ReplaceById(qs: seq<Question>, u: Question): (r: seq<Question>)
    ensures |r| == |qs|
    ensures forall i :: 0 <= i < |qs| ==> r[i] == if qs[i].id == u.id then u else qs[i]
  {
    if qs == [] then []
    else [if qs[0].id == u.id then u else qs[0]] + ReplaceById(qs[1..], u)
  }

  /** With distinct ids, replacing by id overwrites exactly one position. */
  lemma ReplaceByIdOne(qs: seq<Question>, u: Question, k: int)
    requires 0 <= k < |qs| && qs[k].id == u.id
    requires forall i :: 0 <= i < |qs| && i != k ==> qs[i].id != u.id
    ensures ReplaceById(qs, u) == qs[k := u]
  {
    assert forall i :: 0 <= i < |qs| ==> ReplaceById(qs, u)[i] == qs[k := u][i];
  }

  predicate Incomplete(q: Question) {
    !q.isCompleted
  }

  datatype SubmitError = QuestionsIncomplete | RecheckMissing

  function SubmitMessage(e: SubmitError): string {
    match e
    case QuestionsIncomplete => "Please complete all questions in the checklist."
    case RecheckMissing => "Please set a rechecking date and time."
  }

  /**
   * The validation at the top of `handleSubmit`: any question without
   * `isCompleted` blocks first, a missing rechecking date second.
   */
  function SubmitCheck(questions: seq<Question>, recheck: Option<int>): (r: Option<SubmitError>)
  {
    if |Filter(questions, Incomplete)| > 0 then Some(QuestionsIncomplete)
    else if recheck == None then Some(RecheckMissing)
    else None
  }

  /** The filter of incomplete questions is non-empty exactly when some question is incomplete. */
  lemma {:induction false} IncompleteFilterNonEmpty(qs: seq<Question>)
    ensures |Filter(qs, Incomplete)| > 0 <==> exists i :: 0 <= i < |qs| && !qs[i].isCompleted
  {
    if qs != [] {
      IncompleteFilterNonEmpty(qs[1..]);
      if exists i :: 0 <= i < |qs[1..]| && !qs[1..][i].isCompleted {
        var i :| 0 <= i < |qs[1..]| && !qs[1..][i].isCompleted;
        assert !qs[i + 1].isCompleted;
      }
      if exists i :: 0 <= i < |qs| && !qs[i].isCompleted {
        var i :| 0 <= i < |qs| && !qs[i].isCompleted;
        if i > 0 {
          assert !qs[1..][i - 1].isCompleted;
        }
      }
    }
  }

  /** Submission passes its checks iff every question is completed and a rechecking date is set. */
  lemma SubmitCheckPasses(questions: seq<Question>, recheck: Option<int>)
    ensures SubmitCheck(questions, recheck) == None <==>
              (forall i :: 0 <= i < |questions| ==> questions[i].isCompleted) && recheck.Some?
    ensures SubmitCheck(questions, recheck) == Some(QuestionsIncomplete) <==>
              exists i :: 0 <= i < |questions| && !questions[i].isCompleted
  {
    IncompleteFilterNonEmpty(questions);
  }

  /** The record handed to the remote save or the queue. */
  datatype Payload = Payload(
    id: string,
    taskName: string,
    checklistType: Option<string>,
    questions: seq<Question>,
    drawings: Option<string>,
    collaborators: seq<string>,
    collaboratorPhoto: Option<string>,
    recheckingTime: int,
    timestamp: nat)

  /** The four readings of the millisecond clock a submit makes: two for the payload, two in `addToQueue`. */
  datatype SubmitClock = SubmitClock(payloadIdMs: nat, payloadStampMs: nat, itemIdMs: nat, itemStampMs: nat)

  /** Where a submit ended: blocked by validation, saved remotely, or queued. */
  datatype SubmitOutcome = Blocked(error: SubmitError) | SavedRemotely | QueuedAfterFailure | QueuedOffline

  /** Which picture an annotation belongs to. */
  datatype AnnotationTarget = DiagramTarget | ProofTarget

  /** The template part of a question: what editing never changes. */
  predicate SameTemplate(a: Question, b: Question) {
    a.id == b.id && a.text == b.text && a.kind == b.kind && a.options == b.options
    && a.requiredProof == b.requiredProof
  }

  /**
   * The checklist the form can hold: the default templates in their order,
   * answers of the shape each kind's input writes, and a completed flag only on
   * an entry that passed the editor's rules.
   */
  ghost predicate Conforms(qs: seq<Question>) {
    |qs| == |Data.DefaultQuestions()|
    && forall i :: 0 <= i < |qs| ==>
         SameTemplate(qs[i], Data.DefaultQuestions()[i]) && Fits(qs[i])
         && (qs[i].isCompleted ==> SaveCheck(qs[i]) == None)
  }

  /** A working copy cloned from one of the default templates. */
  ghost predicate FromTemplate(a: Question) {
    Fits(a) && exists k :: 0 <= k < |Data.DefaultQuestions()| && SameTemplate(a, Data.DefaultQuestions()[k])
  }

  lemma DefaultsConform()
    ensures Conforms(Data.DefaultQuestions())
  {
  }

  /** Saving a working copy taken from the checklist keeps the checklist conforming. */
  lemma SaveKeepsConforming(qs: seq<Question>, a: Question)
    requires Conforms(qs) && FromTemplate(a) && SaveCheck(a) == None
    ensures Conforms(ReplaceById(qs, a.(isCompleted := true)))
  {
    var u := a.(isCompleted := true);
    var k :| 0 <= k < |Data.DefaultQuestions()| && SameTemplate(a, Data.DefaultQuestions()[k]);
    SaveCheckIgnoresBookkeeping(a, true, a.id, a.text, a.options);
    forall i | 0 <= i < |qs| && qs[i].id == u.id
      ensures i == k
    {
      Data.DefaultIdsDistinct(i, k);
    }
  }

  /** The state cells of the inspection form screen. */
  class Form {
    /** The route parameter `inspectionId`; its presence means a resumed inspection. */
    const inspectionId: Option<string>
    /** The lowest step Back can reach: 1 when resumed, 0 when new. */
    const minStep: int
    var step: int
    var taskName: string
    var checklistType: Option<string>
    var selectedRole: Option<string>
    var collaboratorPhoto: Option<string>
    var hasDiagram: Option<bool>
    var diagramImage: Option<string>
    var questions: seq<Question>
    /** The editor's working copy. */
    var active: Option<Question>
    /** The rechecking date, as milliseconds. */
    var recheck: Option<int>

    ghost predicate Valid()
      reads this
    {
      && minStep == InitialStep(inspectionId)
      && minStep <= step <= LastStep
      && Conforms(questions)
      && (active.Some? ==> FromTemplate(active.value))
    }

    /** A fresh form: step 1 when resumed, 0 otherwise, every other cell empty, the default checklist. */
    constructor (inspectionId: Option<string>)
      ensures Valid()
      ensures this.inspectionId == inspectionId
      ensures step == minStep == InitialStep(inspectionId)
      ensures taskName == "" && checklistType == None && selectedRole == None
      ensures collaboratorPhoto == None && hasDiagram == None && diagramImage == None
      ensures questions == Data.DefaultQuestions() && active == None && recheck == None
    {
      this.inspectionId := inspectionId;
      minStep := InitialStep(inspectionId);
      step := InitialStep(inspectionId);
      taskName := "";
      checklistType := None;
      selectedRole := None;
      collaboratorPhoto := None;
      hasDiagram := None;
      diagramImage := None;
      questions := Data.DefaultQuestions();
      active := None;
      recheck := None;
      DefaultsConform();
    }

    /** The task-name text box. */
    method SetTaskName(s: string)
      requires Valid()
      modifies this`taskName
      ensures Valid()
      ensures taskName == s
    {
      taskName := s;
    }

    /** `handleSelectChecklistType`: the type is set; the wizard jumps to step 1 only when a task name is there. */
    method SelectChecklistType(t: string)
      requires Valid()
      modifies this`checklistType, this`step
      ensures Valid()
      ensures checklistType == Some(t)
      ensures step == if !Blank(old(taskName)) then 1 else old(step)
    {
      checklistType := Some(t);
      if !Blank(taskName) {
        step := 1;
      }
    }

    /** `toggleRole`: the same role again deselects it; any other role replaces the selection. */
    method ToggleRole(role: string)
      requires Valid()
      modifies this`selectedRole
      ensures Valid()
      ensures selectedRole == None || selectedRole == Some(role)
      ensures selectedRole == None <==> old(selectedRole) == Some(role)
    {
      if selectedRole == Some(role) {
        selectedRole := None;
      } else {
        selectedRole := Some(role);
      }
    }

    /** The collaborator photo: a camera result, or `None` from the remove button. */
    method SetCollaboratorPhoto(uri: Option<string>)
      requires Valid()
      modifies this`collaboratorPhoto
      ensures Valid()
      ensures collaboratorPhoto == uri
    {
      collaboratorPhoto := uri;
    }

    /** The yes/no buttons of the diagram step. */
    method SetHasDiagram(b: bool)
      requires Valid()
      modifies this`hasDiagram
      ensures Valid()
      ensures hasDiagram == Some(b)
    {
      hasDiagram := Some(b);
    }

    /** The date picker's result, as milliseconds. */
    method SetRecheckingDate(ms: int)
      requires Valid()
      modifies this`recheck
      ensures Valid()
      ensures recheck == Some(ms)
    {
      recheck := Some(ms);
    }

    /** `handleNext`: the gate decides; only `Advanced` moves the cursor, by one. */
    method Next() returns (r: NextOutcome)
      requires Valid()
      modifies this`step
      ensures Valid()
      ensures r == NextGate(old(step), taskName, checklistType, hasDiagram, diagramImage)
      ensures step == if r == Advanced then old(step) + 1 else old(step)
    {
      if step == 0 {
        if Blank(taskName) {
          return TaskNameMissing;
        }
        if !Present(checklistType) {
          return ChecklistTypeMissing;
        }
      }
      if step == 2 {
        if hasDiagram == None {
          return DiagramAnswerMissing;
        }
        if !Present(diagramImage) {
          return DiagramImageMissing;
        }
      }
      if step < LastStep {
        step := step + 1;
        r := Advanced;
      } else {
        r := AtLastStep;
      }
    }

    /** `handleBack`: one step back above the lowest step; at it, a cancel is requested instead. */
    method Back() returns (cancelRequested: bool)
      requires Valid()
      modifies this`step
      ensures Valid()
      ensures cancelRequested <==> old(step) <= minStep
      ensures step == if cancelRequested then old(step) else old(step) - 1
    {
      if step > minStep {
        step := step - 1;
        cancelRequested := false;
      } else {
        cancelRequested := true;
      }
    }

    /** `openQuestionModal(q)`: the editor gets a copy; the checklist itself is not touched. */
    method OpenQuestionModal(q: Question)
      requires Valid() && q in questions
      modifies this`active
      ensures Valid()
      ensures active == Some(q)
    {
      ghost var i :| 0 <= i < |questions| && questions[i] == q;
      active := Some(q);
    }

    /** The text box of a text question writes its string into the working copy. */
    method TypeAnswer(t: string)
      requires Valid() && active.Some? && active.value.kind == Text
      modifies this`active
      ensures Valid()
      ensures active == Some(old(active).value.(answer := Str(t)))
    {
      active := Some(active.value.(answer := Str(t)));
    }

    /** The Yes/No buttons of a boolean question. */
    method ChooseYesNo(b: bool)
      requires Valid() && active.Some? && active.value.kind == Boolean
      modifies this`active
      ensures Valid()
      ensures active == Some(old(active).value.(answer := Bool(b)))
    {
      active := Some(active.value.(answer := Bool(b)));
    }

    /** An option chip of a radio or select question. */
    method ChooseOption(opt: string)
      requires Valid() && active.Some? && (active.value.kind == Radio || active.value.kind == Select)
      requires active.value.options.Some? && opt in active.value.options.value
      modifies this`active
      ensures Valid()
      ensures active == Some(old(active).value.(answer := Str(opt)))
    {
      active := Some(active.value.(answer := Str(opt)));
    }

    /** The comment box of the editor. */
    method EditComment(c: string)
      requires Valid() && active.Some?
      modifies this`active
      ensures Valid()
      ensures active == Some(old(active).value.(comment := c))
    {
      active := Some(active.value.(comment := c));
    }

    /**
     * `saveQuestion`: with no open question nothing happens; a copy failing a
     * rule is refused with the first failing rule and the checklist is
     * untouched; an accepted copy replaces the entry with its id, marked
     * completed, and the editor closes.
     */
    method SaveQuestion() returns (r: SaveOutcome)
      requires Valid()
      modifies this`questions, this`active
      ensures Valid()
      ensures old(active) == None ==> r == NothingOpen
      ensures old(active).Some? && SaveCheck(old(active).value).Some? ==>
                r == Refused(SaveCheck(old(active).value).value)
      ensures old(active).Some? && SaveCheck(old(active).value) == None ==> r == Saved
      ensures r == Saved ==>
                questions == ReplaceById(old(questions), old(active).value.(isCompleted := true))
                && active == None
      ensures r != Saved ==> questions == old(questions) && active == old(active)
    {
      if active == None {
        return NothingOpen;
      }
      var q := active.value;
      var refusal := SaveCheck(q);
      if refusal.Some? {
        return Refused(refusal.value);
      }
      SaveKeepsConforming(questions, q);
      questions := ReplaceById(questions, q.(isCompleted := true));
      active := None;
      r := Saved;
    }

    /**
     * `handleAnnotationSave` as written: the annotated picture goes to the
     * working copy's proof when a working copy exists, and to the diagram only
     * when none does.
     */
    method AnnotationSave(uri: string)
      requires Valid()
      modifies this`active, this`diagramImage
      ensures Valid()
      ensures old(active).Some? ==>
                active == Some(old(active).value.(proof := Some(uri))) && diagramImage == old(diagramImage)
      ensures old(active) == None ==> diagramImage == Some(uri) && active == None
    {
      if active.Some? {
        active := Some(active.value.(proof := Some(uri)));
      } else {
        diagramImage := Some(uri);
      }
    }

    /** The diagram's Edit/Annotate button clears the working copy so the annotation goes to the diagram. */
    method EditDiagram()
      requires Valid()
      modifies this`active
      ensures Valid()
      ensures active == None
    {
      active := None;
    }

    /**
     * The annotation save with the picture's target recorded when the picker
     * was opened: a diagram annotation always lands on the diagram, and a
     * proof annotation on the working copy.
     */
    method AnnotationSaveFor(target: AnnotationTarget, uri: string)
      requires Valid()
      requires target == ProofTarget ==> active.Some?
      modifies this`active, this`diagramImage
      ensures Valid()
      ensures target == DiagramTarget ==> diagramImage == Some(uri) && active == old(active)
      ensures target == ProofTarget ==>
                active == Some(old(active).value.(proof := Some(uri))) && diagramImage == old(diagramImage)
    {
      if target == DiagramTarget {
        diagramImage := Some(uri);
      } else {
        active := Some(active.value.(proof := Some(uri)));
      }
    }

    /** The payload `handleSubmit` builds from the current cells. */
    function PayloadOf(rechecking: int, idMs: nat, stampMs: nat): (p: Payload)
      reads this
      ensures p.id == if Present(inspectionId) then inspectionId.value else NatToString(idMs)
      ensures p.collaborators == if Present(selectedRole) then [selectedRole.value] else []
      ensures p.questions == questions && p.taskName == taskName && p.drawings == diagramImage
      ensures p.checklistType == checklistType && p.collaboratorPhoto == collaboratorPhoto
      ensures p.recheckingTime == rechecking && p.timestamp == stampMs
    {
      Payload(
        if Present(inspectionId) then inspectionId.value else NatToString(idMs),
        taskName,
        checklistType,
        questions,
        diagramImage,
        if Present(selectedRole) then [selectedRole.value] else [],
        collaboratorPhoto,
        rechecking,
        stampMs)
    }

    /**
     * `handleSubmit`: blocked by an incomplete question (first) or a missing
     * rechecking date; otherwise online it tries the remote save and falls back
     * to the queue when that fails, and offline it queues without trying.
     * Exactly one `inspection_submit` item is queued on either fallback, and
     * every question it carries passed the editor's rules.
     */
    method Submit(isOnline: bool, saveSucceeds: bool, clock: SubmitClock, sync: SyncQueue<Payload>)
      returns (r: SubmitOutcome, saveAttempted: bool)
      requires Valid() && sync.Valid()
      modifies sync
      ensures sync.Valid()
      ensures SubmitCheck(questions, recheck).Some? ==>
                r == Blocked(SubmitCheck(questions, recheck).value) && !saveAttempted
                && sync.queue == old(sync.queue)
      ensures SubmitCheck(questions, recheck) == None ==>
                saveAttempted == isOnline
                && r == (if !isOnline then QueuedOffline else if saveSucceeds then SavedRemotely else QueuedAfterFailure)
      ensures r == SavedRemotely ==> sync.queue == old(sync.queue)
      ensures r == QueuedOffline || r == QueuedAfterFailure ==>
                recheck.Some?
                && sync.queue == [NewItem(InspectionSubmit, PayloadOf(recheck.value, clock.payloadIdMs, clock.payloadStampMs),
                                          clock.itemIdMs, clock.itemStampMs)] + old(sync.queue)
                && forall i :: 0 <= i < |questions| ==> questions[i].isCompleted && SaveCheck(questions[i]) == None
    {
      SubmitCheckPasses(questions, recheck);
      if |Filter(questions, Incomplete)| > 0 {
        return Blocked(QuestionsIncomplete), false;
      }
      if recheck == None {
        return Blocked(RecheckMissing), false;
      }
      var payload := PayloadOf(recheck.value, clock.payloadIdMs, clock.payloadStampMs);
      if isOnline {
        saveAttempted := true;
        if saveSucceeds {
          r := SavedRemotely;
        } else {
          sync.AddToQueue(InspectionSubmit, payload, clock.itemIdMs, clock.itemStampMs);
          r := QueuedAfterFailure;
        }
      } else {
        saveAttempted := false;
        sync.AddToQueue(InspectionSubmit, payload, clock.itemIdMs, clock.itemStampMs);
        r := QueuedOffline;
      }
    }
  }

  /** A new inspection named and typed, moved on to the diagram step. */
  method NewAtDiagramStep() returns (f: Form)
    ensures fresh(f) && f.Valid()
    ensures f.step == 2 && f.minStep == 0 && f.active == None && f.diagramImage == None
    ensures f.questions == Data.DefaultQuestions()
  {
    f := new Form(None);
    f.SetTaskName("Block A");
    VisibleStartNotBlank("Block A");
    f.SelectChecklistType("Structural");
    var n := f.Next();
  }

  /**
   * On the diagram step attach a diagram, go on, open the first question and
   * close the editor without saving by going back: the closed question's
   * working copy is still held.
   */
  method EditorClosedOverDiagram() returns (f: Form)
    ensures fresh(f) && f.Valid()
    ensures f.step == 2 && f.diagramImage == Some("d1") && f.active.Some?
  {
    f := DiagramAttached();
    var n := f.Next();
    f.OpenQuestionModal(f.questions[0]);
    var cancel := f.Back();
  }

  /** A new inspection on the diagram step with diagram `d1` attached and no editor open. */
  method DiagramAttached() returns (f: Form)
    ensures fresh(f) && f.Valid()
    ensures f.step == 2 && f.minStep == 0 && f.active == None && f.diagramImage == Some("d1") && f.hasDiagram == Some(false)
    ensures f.questions == Data.DefaultQuestions()
  {
    f := NewAtDiagramStep();
    f.SetHasDiagram(false);
    f.AnnotationSave("d1");
  }

  /**
   * The stale working copy as written: after those steps, replace the
   * diagram; the new picture lands on the closed question's proof and the
   * old diagram stays.
   */
  method DiagramChangeLost() returns (f: Form)
    ensures f.step == 2 && f.diagramImage == Some("d1")
    ensures f.active.Some? && f.active.value.proof == Some("d2")
  {
    f := EditorClosedOverDiagram();
    f.AnnotationSave("d2");
  }

  /** The same steps with the target recorded at pick time: the change reaches the diagram. */
  method DiagramChangeKept() returns (f: Form)
    ensures f.step == 2 && f.diagramImage == Some("d2")
  {
    f := EditorClosedOverDiagram();
    f.AnnotationSaveFor(DiagramTarget, "d2");
  }
}
