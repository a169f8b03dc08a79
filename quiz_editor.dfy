/**
  The quiz editor dialog `QuizCreationDialog`
  (src/components/QuizCreationDialog.tsx): a list of questions keyed by id,
  edited through add / remove / update operations, and a submit that
  validates the form and resets it.

  The list transforms are pure functions of the old list, as the `filter`
  and `map` calls of the source are; the dialog's fields and their setters
  are the class `QuizDialog`.
*/
module QuizEditor {
  import opened Subsequences

  datatype Question = Question(
    id: string,
    question: string,
    options: seq<string>,
    correctAnswer: int,
    points: int)

  /** The fields `updateQuestion` is called with, and the new value. */
  datatype QuestionField =
    | QuestionText(text: string)
    | CorrectAnswer(index: int)
    | Points(points: int)

  const OptionCount := 4
  const DefaultPoints := 10
  const DefaultTimeLimit := "30"
  const InitialId := "1"

  function BlankQuestion(id: string): (q: Question)
    ensures q.id == id && q.question == "" && q.correctAnswer == 0 && q.points == DefaultPoints
    ensures |q.options| == OptionCount && forall j :: 0 <= j < |q.options| ==> q.options[j] == ""
  {
    Question(id, "", ["", "", "", ""], 0, DefaultPoints)
  }

  /** The list the dialog starts with and is reset to. */
  function InitialQuestions(): (qs: seq<Question>)
    ensures |qs| == 1 && qs[0] == BlankQuestion(InitialId)
  {
    [BlankQuestion(InitialId)]
  }

  ghost predicate DistinctIds(qs: seq<Question>) {
    forall i, j :: 0 <= i < j < |qs| ==> qs[i].id != qs[j].id
  }

  // ---------------------------------------------------------------------
  // List transforms

  /** `addQuestion`: a blank question with a fresh id goes at the end. */
  function AddedQuestion(qs: seq<Question>, freshId: string): (r: seq<Question>)
    ensures |r| == |qs| + 1
    ensures r[..|qs|] == qs
    ensures r[|qs|] == BlankQuestion(freshId)
  {
    qs + [BlankQuestion(freshId)]
  }

  /** The filter `removeQuestion` applies: every question whose id differs
      from `id` is kept, as often as it occurs and in its order. */
  function WithoutId(qs: seq<Question>, id: string): (r: seq<Question>)
    ensures |r| <= |qs|
    ensures forall q :: q in r <==> q in qs && q.id != id
    ensures forall q :: multiset(r)[q] == if q.id != id then multiset(qs)[q] else 0
    ensures IsSubsequence(r, qs)
  {
    if qs == [] then []
    else
      assert qs == [qs[0]] + qs[1..];
      if qs[0].id != id then [qs[0]] + WithoutId(qs[1..], id)
      else WithoutId(qs[1..], id)
  }

  /** `removeQuestion`: filters only while more than one question is left. */
  function RemovedQuestion(qs: seq<Question>, id: string): (r: seq<Question>)
    ensures |qs| <= 1 ==> r == qs
    ensures |qs| > 1 ==> r == WithoutId(qs, id)
    ensures |qs| > 1 ==> forall q :: multiset(r)[q] == if q.id != id then multiset(qs)[q] else 0
    ensures IsSubsequence(r, qs) || r == qs
  {
    if |qs| > 1 then WithoutId(qs, id) else qs
  }

  /** The spread update `updateQuestion` applies to a matching question:
      the named field takes the new value. */
  function SetField(q: Question, field: QuestionField): (r: Question)
    ensures r.id == q.id && r.options == q.options
    ensures field.QuestionText? ==>
              r.question == field.text && r.correctAnswer == q.correctAnswer && r.points == q.points
    ensures field.CorrectAnswer? ==>
              r.correctAnswer == field.index && r.question == q.question && r.points == q.points
    ensures field.Points? ==>
              r.points == field.points && r.question == q.question && r.correctAnswer == q.correctAnswer
  {
    match field
    case QuestionText(t) => q.(question := t)
    case CorrectAnswer(k) => q.(correctAnswer := k)
    case Points(n) => q.(points := n)
  }

  /** `updateQuestion`: only questions with the matching id change. */
  function UpdatedQuestion(qs: seq<Question>, id: string, field: QuestionField): (r: seq<Question>)
    ensures |r| == |qs|
    ensures forall i :: 0 <= i < |qs| && qs[i].id != id ==> r[i] == qs[i]
    ensures forall i :: 0 <= i < |qs| && qs[i].id == id ==> r[i] == SetField(qs[i], field)
  {
    seq(|qs|, i requires 0 <= i < |qs| => if qs[i].id == id then SetField(qs[i], field) else qs[i])
  }

  /** The option list of a matching question after `updateOption`: the
      option at `optionIndex` takes the new value. */
  function ReplacedOption(options: seq<string>, optionIndex: int, value: string): (r: seq<string>)
    ensures |r| == |options|
    ensures 0 <= optionIndex < |options| ==> r[optionIndex] == value
    ensures forall j :: 0 <= j < |options| && j != optionIndex ==> r[j] == options[j]
    ensures !(0 <= optionIndex < |options|) ==> r == options
  {
    seq(|options|, j requires 0 <= j < |options| => if j == optionIndex then value else options[j])
  }

  /** `updateOption`: only the chosen option of the matching questions changes. */
  function UpdatedOption(qs: seq<Question>, questionId: string, optionIndex: int, value: string): (r: seq<Question>)
    ensures |r| == |qs|
    ensures forall i :: 0 <= i < |qs| && qs[i].id != questionId ==> r[i] == qs[i]
    ensures forall i :: 0 <= i < |qs| && qs[i].id == questionId ==>
              r[i] == qs[i].(options := ReplacedOption(qs[i].options, optionIndex, value))
  {
    seq(|qs|, i requires 0 <= i < |qs| =>
      if qs[i].id == questionId then qs[i].(options := ReplacedOption(qs[i].options, optionIndex, value))
      else qs[i])
  }

  // ---------------------------------------------------------------------
  // Validation

  /** The inner test of `handleSubmit`: some option of a question is empty. */
  function AnyEmptyOption(options: seq<string>): (r: bool)
    ensures r <==> exists j :: 0 <= j < |options| && options[j] == ""
  {
    if options == [] then false
    else options[0] == "" || AnyEmptyOption(options[1..])
  }

  /** A question `handleSubmit` rejects: empty text or an empty option. */
  predicate IsIncomplete(q: Question)
    ensures IsIncomplete(q) <==> q.question == "" || exists j :: 0 <= j < |q.options| && q.options[j] == ""
  {
    q.question == "" || AnyEmptyOption(q.options)
  }

  /** The question test of `handleSubmit`: some question is incomplete. */
  function AnyIncomplete(qs: seq<Question>): (r: bool)
    ensures r <==> exists i :: 0 <= i < |qs| && IsIncomplete(qs[i])
  {
    if qs == [] then false
    else IsIncomplete(qs[0]) || AnyIncomplete(qs[1..])
  }

  /** The submit check: a title, a week, and every question and option filled. */
  function FormAccepts(title: string, week: string, qs: seq<Question>): (r: bool)
    ensures r <==> title != "" && week != "" &&
                   forall i :: 0 <= i < |qs| ==>
                     (qs[i].question != "" && forall j :: 0 <= j < |qs[i].options| ==> qs[i].options[j] != "")
  {
    !(title == "" || week == "" || AnyIncomplete(qs))
  }

  // ---------------------------------------------------------------------
  // The dialog

  class QuizDialog {
    var title: string
    var description: string
    var week: string
    var timeLimit: string
    var questions: seq<Question>
    var isOpen: bool

    /** The form as it is first shown and after every accepted submit. */
    predicate IsReset()
      reads this
    {
      title == "" && description == "" && week == "" && timeLimit == DefaultTimeLimit &&
      questions == InitialQuestions()
    }

    constructor (open: bool)
      ensures IsReset() && isOpen == open
    {
      title, description, week, timeLimit := "", "", "", DefaultTimeLimit;
      questions := InitialQuestions();
      isOpen := open;
    }

    method SetTitle(value: string)
      modifies this
      ensures title == value
      ensures description == old(description) && week == old(week) && timeLimit == old(timeLimit)
      ensures questions == old(questions) && isOpen == old(isOpen)
    {
      title := value;
    }

    method SetDescription(value: string)
      modifies this
      ensures description == value
      ensures title == old(title) && week == old(week) && timeLimit == old(timeLimit)
      ensures questions == old(questions) && isOpen == old(isOpen)
    {
      description := value;
    }

    method SetWeek(value: string)
      modifies this
      ensures week == value
      ensures title == old(title) && description == old(description) && timeLimit == old(timeLimit)
      ensures questions == old(questions) && isOpen == old(isOpen)
    {
      week := value;
    }

    method SetTimeLimit(value: string)
      modifies this
      ensures timeLimit == value
      ensures title == old(title) && description == old(description) && week == old(week)
      ensures questions == old(questions) && isOpen == old(isOpen)
    {
      timeLimit := value;
    }

    method AddQuestion(freshId: string)
      modifies this`questions
      ensures questions == AddedQuestion(old(questions), freshId)
    {
      questions := questions + [BlankQuestion(freshId)];
    }

    method RemoveQuestion(id: string)
      modifies this`questions
      ensures questions == RemovedQuestion(old(questions), id)
    {
      if |questions| > 1 {
        questions := WithoutId(questions, id);
      }
    }

    method UpdateQuestion(id: string, field: QuestionField)
      modifies this`questions
      ensures questions == UpdatedQuestion(old(questions), id, field)
    {
      questions := UpdatedQuestion(questions, id, field);
    }

    method UpdateOption(questionId: string, optionIndex: int, value: string)
      modifies this`questions
      ensures questions == UpdatedOption(old(questions), questionId, optionIndex, value)
    {
      questions := UpdatedOption(questions, questionId, optionIndex, value);
    }

    /** `handleSubmit`: a rejected form stays as it is and open; an
        accepted one is reset and the dialog closes. */
    method HandleSubmit() returns (accepted: bool)
      modifies this
      ensures accepted == FormAccepts(old(title), old(week), old(questions))
      ensures !accepted ==> unchanged(this)
      ensures accepted ==> IsReset() && !isOpen
    {
      if title == "" || week == "" || AnyIncomplete(questions) {
        return false;
      }
      accepted := true;
      title := "";
      description := "";
      week := "";
      timeLimit := DefaultTimeLimit;
      questions := InitialQuestions();
      isOpen := false;
    }
  }

  // ---------------------------------------------------------------------
  // Properties of the list operations

  /** Filtering out an id absent from the list changes nothing. */
  lemma {:induction false} WithoutAbsentId(qs: seq<Question>, id: string)
    requires forall i :: 0 <= i < |qs| ==> qs[i].id != id
    ensures WithoutId(qs, id) == qs
  {
    if qs != [] {
      WithoutAbsentId(qs[1..], id);
    }
  }

  /** With distinct ids, filtering by one id drops at most one question. */
  lemma {:induction false} WithoutIdDropsAtMostOne(qs: seq<Question>, id: string)
    requires DistinctIds(qs)
    ensures |WithoutId(qs, id)| >= |qs| - 1
  {
    if qs != [] {
      if qs[0].id == id {
        WithoutAbsentId(qs[1..], id);
      } else {
        WithoutIdDropsAtMostOne(qs[1..], id);
      }
    }
  }

  /** With distinct ids, removing never empties a non-empty list. */
  lemma RemoveKeepsAQuestion(qs: seq<Question>, id: string)
    requires DistinctIds(qs) && |qs| >= 1
    ensures |RemovedQuestion(qs, id)| >= 1
  {
    if |qs| > 1 {
      WithoutIdDropsAtMostOne(qs, id);
    }
  }

  /** Without distinct ids the guard is not enough: two questions that
      share an id are removed together and the list becomes empty. */
  lemma DuplicateIdsEmptyTheList()
    ensures RemovedQuestion([BlankQuestion("7"), BlankQuestion("7")], "7") == []
  {
    var qs := [BlankQuestion("7"), BlankQuestion("7")];
    assert qs[1..][1..] == [];
  }

  /** Adding with an id not yet in use keeps the ids distinct; the initial
      list has distinct ids. */
  lemma AddKeepsIdsDistinct(qs: seq<Question>, freshId: string)
    requires DistinctIds(qs)
    requires forall i :: 0 <= i < |qs| ==> qs[i].id != freshId
    ensures DistinctIds(AddedQuestion(qs, freshId))
    ensures DistinctIds(InitialQuestions())
  {
  }

  /** Removing keeps ids distinct. */
  lemma RemoveKeepsIdsDistinct(qs: seq<Question>, id: string)
    requires DistinctIds(qs)
    ensures DistinctIds(RemovedQuestion(qs, id))
  {
    if |qs| > 1 {
      SubsequenceKeepsIdsDistinct(WithoutId(qs, id), qs);
    }
  }

  lemma {:induction false} SubsequenceKeepsIdsDistinct(a: seq<Question>, b: seq<Question>)
    requires IsSubsequence(a, b) && DistinctIds(b)
    ensures DistinctIds(a)
    decreases |b|
  {
    if a != [] && b != [] {
      if a[0] == b[0] && IsSubsequence(a[1..], b[1..]) {
        SubsequenceKeepsIdsDistinct(a[1..], b[1..]);
        SubsequenceElements(a[1..], b[1..]);
        forall j | 0 < j < |a| ensures a[0].id != a[j].id {
          assert a[j] == a[1..][j - 1] && a[j] in a[1..];
          assert a[j] in b[1..];
          var k :| 0 <= k < |b[1..]| && b[1..][k] == a[j];
          assert b[k + 1] == a[j];
        }
      } else {
        SubsequenceKeepsIdsDistinct(a, b[1..]);
      }
    }
  }

  lemma {:induction false} SubsequenceElements<T>(a: seq<T>, b: seq<T>)
    requires IsSubsequence(a, b)
    ensures forall x :: x in a ==> x in b
    decreases |b|
  {
    if a != [] && b != [] {
      if a[0] == b[0] && IsSubsequence(a[1..], b[1..]) {
        SubsequenceElements(a[1..], b[1..]);
        assert a == [a[0]] + a[1..];
      } else {
        SubsequenceElements(a, b[1..]);
      }
    }
  }

  /** Validation ignores the correct answer and the points of a question. */
  lemma ValidationIgnoresAnswerAndPoints(title: string, week: string, qs: seq<Question>, id: string, n: int)
    ensures FormAccepts(title, week, UpdatedQuestion(qs, id, CorrectAnswer(n))) == FormAccepts(title, week, qs)
    ensures FormAccepts(title, week, UpdatedQuestion(qs, id, Points(n))) == FormAccepts(title, week, qs)
  {
  }

  /** A freshly reset form is rejected until its fields are filled in. */
  lemma ResetFormIsRejected()
    ensures !FormAccepts("", "", InitialQuestions())
  {
  }
}
