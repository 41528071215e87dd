/**
 * A checklist question of the inspection form and the ordered list of rules
 * the question editor applies before it accepts an edited question.
 */
module Questions {
  import opened Js

  /** The four question kinds; `options` comes only with `Radio` and `Select`. */
  datatype Kind = Text | Radio | Boolean | Select

  /** The answer cell: `null`, a string (text, radio, select) or a boolean (yes/no). */
  datatype Answer = Null | Str(s: string) | Bool(b: bool)

  /**
   * One checklist entry. `isCompleted` is optional in the source; an absent flag
   * is falsy, which is `false` here.
   */
  datatype Question = Question(
    id: int,
    text: string,
    kind: Kind,
    options: Option<seq<string>>,
    answer: Answer,
    comment: string,
    proof: Option<string>,
    requiredProof: bool,
    isCompleted: bool)

  /** JavaScript truthiness of an answer: `null`, `""` and `false` are falsy. */
  predicate Truthy(a: Answer) {
    match a
    case Null => false
    case Str(s) => s != ""
    case Bool(b) => b
  }

  /** The fixed negative set: `'Fail'`, `'No'`, `'Rejected'` and `false`, compared strictly. */
  predicate IsNegative(a: Answer) {
    a == Str("Fail") || a == Str("No") || a == Str("Rejected") || a == Bool(false)
  }

  /**
   * Why the editor refuses to save. `TrimOnNonString` is the TypeError that
   * `answer.trim()` throws when a text question holds no string.
   */
  datatype SaveError =
    | TrimOnNonString
    | AnswerRequired
    | OptionRequired
    | YesNoRequired
    | CommentRequired
    | ProofRequired

  /** The toast shown for each refusal (`TrimOnNonString` shows none: the handler throws). */
  function SaveErrorMessage(e: SaveError): string {
    match e
    case TrimOnNonString => ""
    case AnswerRequired => "Please enter an answer."
    case OptionRequired => "Please select an option."
    case YesNoRequired => "Please select Yes or No."
    case CommentRequired => "Please add a comment for this negative result."
    case ProofRequired => "Photo proof is required for this item."
  }

  // The five rules, each on its own.

  /** A text question evaluates `answer.trim()`, which needs a string. */
  predicate TrimmableAnswer(q: Question) {
    q.kind != Text || q.answer.Str?
  }

  /** A text answer must not be blank. */
  predicate TextAnswered(q: Question)
    requires TrimmableAnswer(q)
  {
    q.kind != Text || !Blank(q.answer.s)
  }

  /** A radio or select answer must be truthy; membership in `options` is not checked. */
  predicate OptionChosen(q: Question) {
    (q.kind != Radio && q.kind != Select) || Truthy(q.answer)
  }

  /** A yes/no answer must not be `null`. */
  predicate YesNoChosen(q: Question) {
    q.kind != Boolean || q.answer != Null
  }

  /** A negative answer needs a non-blank comment. */
  predicate CommentGiven(q: Question) {
    !IsNegative(q.answer) || !Blank(q.comment)
  }

  /** A question that requires proof needs a truthy proof URI. */
  predicate ProofGiven(q: Question) {
    !q.requiredProof || Present(q.proof)
  }

  /**
   * The editor's check on the working copy: the first rule that fails, in the
   * order the handler tests them, or `None` when the copy may be saved.
   */
  function SaveCheck(q: Question): (r: Option<SaveError>)
    ensures r == None <==>
              TrimmableAnswer(q) && TextAnswered(q) && OptionChosen(q) && YesNoChosen(q)
              && CommentGiven(q) && ProofGiven(q)
  {
    if q.kind == Text && !q.answer.Str? then Some(TrimOnNonString)
    else if q.kind == Text && Blank(q.answer.s) then Some(AnswerRequired)
    else if (q.kind == Radio || q.kind == Select) && !Truthy(q.answer) then Some(OptionRequired)
    else if q.kind == Boolean && q.answer == Null then Some(YesNoRequired)
    else if IsNegative(q.answer) && Blank(q.comment) then Some(CommentRequired)
    else if q.requiredProof && !Present(q.proof) then Some(ProofRequired)
    else None
  }

  /**
   * The refusal reported is the FIRST failing rule: each reason is reported
   * exactly when every earlier rule passes and its own rule fails.
   */
  lemma SaveCheckOrder(q: Question)
    ensures SaveCheck(q) == Some(TrimOnNonString) <==> !TrimmableAnswer(q)
    ensures SaveCheck(q) == Some(AnswerRequired) <==> TrimmableAnswer(q) && !TextAnswered(q)
    ensures SaveCheck(q) == Some(OptionRequired) <==>
              TrimmableAnswer(q) && TextAnswered(q) && !OptionChosen(q)
    ensures SaveCheck(q) == Some(YesNoRequired) <==>
              TrimmableAnswer(q) && TextAnswered(q) && OptionChosen(q) && !YesNoChosen(q)
    ensures SaveCheck(q) == Some(CommentRequired) <==>
              TrimmableAnswer(q) && TextAnswered(q) && OptionChosen(q) && YesNoChosen(q)
              && !CommentGiven(q)
    ensures SaveCheck(q) == Some(ProofRequired) <==>
              TrimmableAnswer(q) && TextAnswered(q) && OptionChosen(q) && YesNoChosen(q)
              && CommentGiven(q) && !ProofGiven(q)
  {
  }

  /** The check reads neither `isCompleted` nor `id` nor `text` nor `options`. */
  lemma SaveCheckIgnoresBookkeeping(q: Question, done: bool, id: int, text: string, opts: Option<seq<string>>)
    ensures SaveCheck(q.(isCompleted := done, id := id, text := text, options := opts)) == SaveCheck(q)
  {
  }

  /**
   * Radio and select answers are accepted on truthiness alone: an answer that
   * is not one of the options passes the check.
   */
  lemma OptionMembershipNotChecked()
    ensures var q := Question(9, "", Radio, Some(["Yes", "No"]), Str("Maybe"), "", None, false, false);
            SaveCheck(q) == None && "Maybe" !in q.options.value
  {
    var q := Question(9, "", Radio, Some(["Yes", "No"]), Str("Maybe"), "", None, false, false);
    assert !IsNegative(q.answer);
    assert "Maybe" != "Yes" && "Maybe" != "No";
  }

  /** A string whose first character is visible does not trim to nothing. */
  lemma VisibleStartNotBlank(s: string)
    requires s != [] && !IsSpace(s[0])
    ensures !Blank(s)
  {
    BlankIffAllSpace(s);
  }

  /** The answer shape each kind's input produces: the text box writes strings, the
      yes/no buttons booleans, and the option chips one of the options. */
  predicate Fits(q: Question) {
    match q.kind
    case Text => q.answer.Str?
    case Boolean => q.answer == Null || q.answer.Bool?
    case Radio => q.answer == Null || (q.answer.Str? && q.options.Some? && q.answer.s in q.options.value)
    case Select => q.answer == Null || (q.answer.Str? && q.options.Some? && q.answer.s in q.options.value)
  }

  /**
   * For an answer the inputs can produce, an accepted question is answered in
   * the stronger sense: a non-blank text, a chosen yes/no, or a non-empty
   * option; never the thrown TypeError.
   */
  lemma {:induction false} AcceptedFittingIsAnswered(q: Question)
    requires Fits(q) && SaveCheck(q) == None
    ensures q.kind == Text ==> q.answer.Str? && !AllSpace(q.answer.s)
    ensures q.kind == Boolean ==> q.answer.Bool?
    ensures (q.kind == Radio || q.kind == Select) ==>
              q.answer.Str? && q.answer.s in q.options.value && q.answer.s != ""
    ensures IsNegative(q.answer) ==> !AllSpace(q.comment)
    ensures q.requiredProof ==> q.proof.Some? && q.proof.value != ""
  {
    if q.kind == Text {
      BlankIffAllSpace(q.answer.s);
    }
    if IsNegative(q.answer) {
      BlankIffAllSpace(q.comment);
    }
  }

  /** A fitting text question never reaches the thrown TypeError. */
  lemma FitsNeverThrows(q: Question)
    requires Fits(q)
    ensures SaveCheck(q) != Some(TrimOnNonString)
  {
  }

  /**
   * A yes/no question answered `false` with a blank comment is refused for the
   * missing comment; once a comment that starts with a visible character is
   * written it is accepted.
   */
  lemma BarrierScenario(q: Question, c: string)
    requires q.kind == Boolean && q.answer == Bool(false) && Blank(q.comment) && !q.requiredProof
    requires c != [] && !IsSpace(c[0])
    ensures SaveCheck(q) == Some(CommentRequired)
    ensures SaveCheck(q.(comment := c)) == None
  {
    assert IsNegative(q.answer);
    VisibleStartNotBlank(c);
  }
}
