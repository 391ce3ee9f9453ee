/** The domain records of the application (types.ts). */
module Types {
  import opened Wrappers

  /** The two members of the QuestionType enum. */
  datatype QuestionType = MultipleChoice | ShortAnswer

  /** The string value each enum member stands for at run time. */
  function Code(t: QuestionType): string
  {
    match t
    case MultipleChoice => "mcq"
    case ShortAnswer => "sa"
  }

  /** Reading a member of the QuestionType enum object by name: a name the
      enum does not declare reads as `undefined` (None). */
  function EnumMember(name: string): Option<string>
  {
    if name == "MultipleChoice" then Some(Code(MultipleChoice))
    else if name == "ShortAnswer" then Some(Code(ShortAnswer))
    else None
  }

  datatype QuestionOption = QuestionOption(id: string, text: string)

  /** `correctAnswer: string | string[]` */
  datatype CorrectAnswer = Single(answer: string) | Several(answers: seq<string>)

  datatype Question = Question(
    id: string,
    kind: QuestionType,
    text: string,
    options: Option<seq<QuestionOption>>,
    correctAnswer: CorrectAnswer,
    explanation: string)

  /** A test; `duration` is in minutes. */
  datatype Test = Test(id: string, name: string, subject: string, duration: int, questions: seq<Question>)

  /** A graded result; `score` is a percentage. */
  datatype TestResult = TestResult(
    score: int,
    aiSummary: string,
    strengths: seq<string>,
    weaknesses: seq<string>,
    correctAnswers: int,
    totalQuestions: int)

  datatype Flashcard = Flashcard(id: string, front: string, back: string)
}
