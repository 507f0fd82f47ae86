/**
 * The quiz session of `src/App.jsx`: six pieces of state, the generation call with
 * its success and failure paths, the answer, next, submit and restart handlers,
 * and the choice of the screen to show.
 */
module App {
  import opened Wrappers
  import opened Home

  /** A generated multiple-choice question; the session never looks inside it. */
  datatype Question = Question(prompt: string, choices: seq<string>, correctChoiceIndex: nat)

  /** The call made to the question generator, chosen by whether a PDF is present. */
  datatype Request =
    | FromPdf(file: File, topic: string, studyLevel: string, numberOfQuestions: Option<nat>)
    | FromText(topic: string, text: string, studyLevel: string, numberOfQuestions: Option<nat>)

  /** What the generator comes back with: a list of questions, or a thrown error. */
  datatype Reply = Generated(questions: seq<Question>) | Failed

  /** The message shown when generation fails. */
  const GenerationFailed := "Erreur lors de la génération des questions"

  /** The screen the session shows, with the properties it passes down. */
  datatype Screen =
    | HomeScreen(loading: bool)
    | ResultsScreen(questions: seq<Question>, userAnswers: seq<Option<nat>>)
    | QuizScreen(question: Question, questionNumber: nat, totalQuestions: nat, selectedAnswer: Option<nat>)

  /**
   * The generator call `generateQuestions` makes for a payload: the PDF path exactly
   * when a file is present, else the text path; topic, level and count go unchanged.
   */
  function RequestFor(p: Payload): (r: Request)
    ensures r.FromPdf? <==> p.form.pdfFile.Some?
    ensures r.FromPdf? ==> r.file == p.form.pdfFile.value
    ensures r.FromText? ==> r.text == p.form.text
    ensures r.topic == p.form.topic && r.studyLevel == p.form.studyLevel
    ensures r.numberOfQuestions == p.numberOfQuestions
  {
    if p.form.pdfFile.Some? then
      FromPdf(p.form.pdfFile.value, p.form.topic, p.form.studyLevel, p.numberOfQuestions)
    else
      FromText(p.form.topic, p.form.text, p.form.studyLevel, p.numberOfQuestions)
  }

  /** `new Array(n).fill(null)`: one unanswered slot per question. */
  function Unanswered(n: nat): (slots: seq<Option<nat>>)
    ensures |slots| == n && forall i :: 0 <= i < n ==> slots[i] == None
  {
    seq(n, _ => None)
  }

  /** The state of the `App` component. */
  class AppState {
    var questions: seq<Question>
    var loading: bool
    var error: Option<string>
    var currentQuestionIndex: nat
    var userAnswers: seq<Option<nat>>
    var showResults: bool

    /**
     * The answers run parallel to the questions, and while there are questions
     * the index names one of them.
     */
    ghost predicate Valid()
      reads this
    {
      && |userAnswers| == |questions|
      && (questions != [] ==> currentQuestionIndex < |questions|)
    }

    /** The screen shown: Home without questions, else Results once submitted, else the current question. */
    function View(): (s: Screen)
      requires Valid()
      reads this
      ensures s.HomeScreen? <==> questions == []
      ensures s.ResultsScreen? <==> questions != [] && showResults
      ensures s.QuizScreen? <==> questions != [] && !showResults
      ensures s.HomeScreen? ==> s.loading == loading
      ensures s.ResultsScreen? ==> s.questions == questions && s.userAnswers == userAnswers
      ensures s.QuizScreen? ==>
        && 1 <= s.questionNumber <= s.totalQuestions == |questions|
        && s.question == questions[s.questionNumber - 1]
        && s.selectedAnswer == userAnswers[s.questionNumber - 1]
        && s.questionNumber == currentQuestionIndex + 1
    {
      if |questions| == 0 then HomeScreen(loading)
      else if showResults then ResultsScreen(questions, userAnswers)
      else QuizScreen(questions[currentQuestionIndex], currentQuestionIndex + 1, |questions|,
                      userAnswers[currentQuestionIndex])
    }

    /** The session at start-up: no questions, so the Home screen. */
    constructor ()
      ensures Valid()
      ensures questions == [] && !loading && error == None
      ensures currentQuestionIndex == 0 && userAnswers == [] && !showResults
      ensures View() == HomeScreen(false)
    {
      questions := [];
      loading := false;
      error := None;
      currentQuestionIndex := 0;
      userAnswers := [];
      showResults := false;
    }

    /**
     * `generateQuestions`: clears the error, calls the generator (returned as
     * `request`; its answer is `reply`), and either installs the new questions with
     * a fresh, unanswered session, or records the failure message and leaves the
     * session as it was. Loading is over either way.
     */
    method GenerateQuestions(payload: Payload, reply: Reply) returns (request: Request)
      requires Valid()
      modifies this
      ensures Valid()
      ensures request == RequestFor(payload)
      ensures !loading
      ensures reply.Generated? ==>
        && questions == reply.questions
        && currentQuestionIndex == 0
        && userAnswers == Unanswered(|reply.questions|)
        && !showResults
        && error == None
      ensures reply.Failed? ==>
        && questions == old(questions)
        && currentQuestionIndex == old(currentQuestionIndex)
        && userAnswers == old(userAnswers)
        && showResults == old(showResults)
        && error == Some(GenerationFailed)
    {
      loading := true;
      error := None;
      request := RequestFor(payload);
      match reply {
        case Generated(generated) =>
          questions := generated;
          currentQuestionIndex := 0;
          userAnswers := Unanswered(|generated|);
          showResults := false;
        case Failed =>
          error := Some(GenerationFailed);
      }
      loading := false;
    }

    /**
     * The quiz's `onAnswer`: a copy of the answers with the current slot set to the
     * chosen option. The quiz screen, and so this handler, exists only while a
     * question is shown.
     */
    method Answer(index: nat)
      requires Valid() && View().QuizScreen?
      modifies this`userAnswers
      ensures Valid()
      ensures |userAnswers| == |old(userAnswers)|
      ensures userAnswers[currentQuestionIndex] == Some(index)
      ensures forall i :: 0 <= i < |userAnswers| && i != currentQuestionIndex ==> userAnswers[i] == old(userAnswers)[i]
      ensures View().QuizScreen? && View().selectedAnswer == Some(index)
    {
      var newAnswers := userAnswers;
      newAnswers := newAnswers[currentQuestionIndex := Some(index)];
      userAnswers := newAnswers;
    }

    /** The quiz's `onNext`: one question on, unless the current one is the last. */
    method Next()
      requires Valid()
      modifies this`currentQuestionIndex
      ensures Valid()
      ensures currentQuestionIndex ==
        if old(currentQuestionIndex) < |questions| - 1 then old(currentQuestionIndex) + 1
        else old(currentQuestionIndex)
      ensures questions != [] ==> currentQuestionIndex <= |questions| - 1
    {
      if currentQuestionIndex < |questions| - 1 {
        currentQuestionIndex := currentQuestionIndex + 1;
      }
    }

    /** The quiz's `onSubmit`: show the results. */
    method Submit()
      requires Valid()
      modifies this`showResults
      ensures Valid()
      ensures showResults
      ensures questions != [] ==> View() == ResultsScreen(questions, userAnswers)
    {
      showResults := true;
    }

    /**
     * The results' `onRestart`: no questions, no answers, results hidden; the index,
     * error and loading flag stay. Whatever the state, Home is shown next.
     */
    method Restart()
      modifies this`questions, this`userAnswers, this`showResults
      ensures Valid()
      ensures questions == [] && userAnswers == [] && !showResults
      ensures View() == HomeScreen(loading)
    {
      questions := [];
      userAnswers := [];
      showResults := false;
    }
  }
}
