/** The request and response records of the learning API, with the field constraints that are
    checked when a record is built. */
module Schema {
  import opened Wrappers

  /** A mind-map node: a label and optional child nodes. */
  datatype MindmapNode = MindmapNode(name: string, children: ChildList)

  /** `Optional[List[MindmapNode]]`: a node built without a `children` key has `Absent`, which is
      a different value from `Present([])`. */
  datatype ChildList = Absent | Present(nodes: seq<MindmapNode>)

  /** One question as the structured LLM output delivers it: four separately named options. */
  datatype MCQQuestionStructured = MCQQuestionStructured(
    question: string,
    optionA: string,
    optionB: string,
    optionC: string,
    optionD: string,
    correctAnswer: string,  // documented as the letter A, B, C or D
    explanation: string)

  /** One question as the API returns it: the options as a list. */
  datatype MCQQuestion = MCQQuestion(
    question: string,
    options: seq<string>,
    correctAnswer: string,  // documented as the letter A, B, C or D, not as an option's text
    explanation: string)

  /** A flashcard; all four fields are required. */
  datatype Flashcard = Flashcard(front: string, back: string, category: string, difficulty: string)

  /** The child list of `t`, with an absent list read as empty. */
  function Children(t: MindmapNode): (cs: seq<MindmapNode>)
    ensures forall i :: 0 <= i < |cs| ==> cs[i] < t
  {
    match t.children
    case Absent => []
    case Present(cs) => cs
  }

  /** The number of nodes in the tree rooted at `t`. */
  function NodeCount(t: MindmapNode): nat
    decreases t, 1
  {
    1 + NodesIn(t, Children(t))
  }

  /** The number of nodes in the trees rooted at `ts`, which are children of `parent`. */
  function NodesIn(parent: MindmapNode, ts: seq<MindmapNode>): nat
    requires forall i :: 0 <= i < |ts| ==> ts[i] < parent
    decreases parent, 0, |ts|
  {
    if ts == [] then 0 else NodeCount(ts[0]) + NodesIn(parent, ts[1..])
  }

  /** The number of parent-to-child links in the tree rooted at `t`. */
  function EdgeCount(t: MindmapNode): nat
    decreases t, 1
  {
    |Children(t)| + EdgesIn(t, Children(t))
  }

  function EdgesIn(parent: MindmapNode, ts: seq<MindmapNode>): nat
    requires forall i :: 0 <= i < |ts| ==> ts[i] < parent
    decreases parent, 0, |ts|
  {
    if ts == [] then 0 else EdgeCount(ts[0]) + EdgesIn(parent, ts[1..])
  }

  /** Every mind map is a tree: it has exactly one link fewer than it has nodes, so every node but
      the root hangs under exactly one parent. */
  lemma {:induction false} MindmapIsTree(t: MindmapNode)
    ensures EdgeCount(t) + 1 == NodeCount(t)
    decreases t, 1
  {
    ForestLinks(t, Children(t));
  }

  lemma {:induction false} ForestLinks(parent: MindmapNode, ts: seq<MindmapNode>)
    requires forall i :: 0 <= i < |ts| ==> ts[i] < parent
    ensures EdgesIn(parent, ts) + |ts| == NodesIn(parent, ts)
    decreases parent, 0, |ts|
  {
    if ts != [] {
      MindmapIsTree(ts[0]);
      ForestLinks(parent, ts[1..]);
    }
  }

  /** The kinds of complaint that building a record can raise, each naming its field. */
  datatype Violation =
    | Missing(field: string)
    | TooShort(field: string)   // shorter than `min_length`
    | TooSmall(field: string)   // below `ge`
    | TooLarge(field: string)   // above `le`

  datatype Validated<+T> = Accepted(value: T) | Rejected(violations: seq<Violation>)

  const DefaultNumQuestions: int := 10
  const MinNumQuestions: int := 1
  const MaxNumQuestions: int := 50

  /** The complaints about a required `str` field with the given `min_length`. */
  function TextViolations(field: string, given: Option<string>, minLength: nat): seq<Violation> {
    match given
    case None => [Missing(field)]
    case Some(s) => if |s| < minLength then [TooShort(field)] else []
  }

  /** The complaints about `num_questions`, declared with default 10, `ge=1`, `le=50`. */
  function NumQuestionsViolations(given: Option<int>): seq<Violation> {
    match given
    case None => []
    case Some(n) =>
      if n < MinNumQuestions then [TooSmall("num_questions")]
      else if n > MaxNumQuestions then [TooLarge("num_questions")]
      else []
  }

  function NumQuestionsValue(given: Option<int>): int {
    match given
    case None => DefaultNumQuestions
    case Some(n) => n
  }

  /** `SummarizeTextInput.text`, `MindmapInput.topic` and `FlashcardInput.content`: a required
      string of length at least 1. */
  function ValidateTextInput(field: string, given: Option<string>): (r: Validated<string>)
    ensures r.Accepted? <==> given.Some? && |given.value| >= 1
    ensures r.Accepted? ==> r.value == given.value
    ensures r.Rejected? ==> r.violations == [if given.None? then Missing(field) else TooShort(field)]
  {
    var v := TextViolations(field, given, 1);
    if v == [] then Accepted(given.value) else Rejected(v)
  }

  datatype MCQQuizInput = MCQQuizInput(content: string, numQuestions: int)

  /** `MCQQuizInput`: `content` required with length at least 1, `num_questions` in [1, 50] with
      default 10; complaints about both fields are reported together, in field order. */
  function ValidateMCQQuizInput(content: Option<string>, numQuestions: Option<int>): (r: Validated<MCQQuizInput>)
    ensures r.Accepted? <==>
      && content.Some? && |content.value| >= 1
      && (numQuestions.Some? ==> MinNumQuestions <= numQuestions.value <= MaxNumQuestions)
    ensures r.Accepted? ==>
      && r.value.content == content.value
      && MinNumQuestions <= r.value.numQuestions <= MaxNumQuestions
      && (numQuestions.None? ==> r.value.numQuestions == DefaultNumQuestions)
      && (numQuestions.Some? ==> r.value.numQuestions == numQuestions.value)
    ensures r.Rejected? ==> |r.violations| >= 1
  {
    var v := TextViolations("content", content, 1) + NumQuestionsViolations(numQuestions);
    if v == [] then Accepted(MCQQuizInput(content.value, NumQuestionsValue(numQuestions))) else Rejected(v)
  }

  datatype MCQQuizMultimediaInput = MCQQuizMultimediaInput(content: Option<string>, numQuestions: int)

  /** `MCQQuizMultimediaInput`: `content` optional (default `None`), `num_questions` as above. */
  function ValidateMCQQuizMultimediaInput(content: Option<string>, numQuestions: Option<int>): (r: Validated<MCQQuizMultimediaInput>)
    ensures r.Accepted? <==> (numQuestions.Some? ==> MinNumQuestions <= numQuestions.value <= MaxNumQuestions)
    ensures r.Accepted? ==>
      && r.value.content == content
      && MinNumQuestions <= r.value.numQuestions <= MaxNumQuestions
      && (numQuestions.None? ==> r.value.numQuestions == DefaultNumQuestions)
      && (numQuestions.Some? ==> r.value.numQuestions == numQuestions.value)
    ensures r.Rejected? ==> |r.violations| >= 1
  {
    var v := NumQuestionsViolations(numQuestions);
    if v == [] then Accepted(MCQQuizMultimediaInput(content, NumQuestionsValue(numQuestions))) else Rejected(v)
  }

  /** `MCQQuizQueryParams`: `content` required but with no minimum length, `num_questions` as above. */
  function ValidateMCQQuizQueryParams(content: Option<string>, numQuestions: Option<int>): (r: Validated<MCQQuizInput>)
    ensures r.Accepted? <==>
      && content.Some?
      && (numQuestions.Some? ==> MinNumQuestions <= numQuestions.value <= MaxNumQuestions)
    ensures r.Accepted? ==>
      && r.value.content == content.value
      && MinNumQuestions <= r.value.numQuestions <= MaxNumQuestions
      && (numQuestions.None? ==> r.value.numQuestions == DefaultNumQuestions)
      && (numQuestions.Some? ==> r.value.numQuestions == numQuestions.value)
    ensures r.Rejected? ==> |r.violations| >= 1
  {
    var v := TextViolations("content", content, 0) + NumQuestionsViolations(numQuestions);
    if v == [] then Accepted(MCQQuizInput(content.value, NumQuestionsValue(numQuestions))) else Rejected(v)
  }
}
