/**
 * Two client scenarios of the session, verified from the contracts alone: a blank topic
 * keeps the generator from being called, and a two-question quiz is walked from a
 * failed attempt through generation, answers and results back to Home.
 */
module Scenarios {
  import opened Wrappers
  import opened Home
  import opened App

  method BlankTopicIsRejected()
  {
    var home := new HomeState();
    var submitted := home.HandleSubmit();
    TopicErrorIff(home.formData);
    assert Topic in home.errors && home.errors[Topic] == TopicRequired;
    assert submitted == None;
  }

  method TwoQuestionQuiz(payload: Payload, first: Question, second: Question)
  {
    var app := new AppState();
    var request := app.GenerateQuestions(payload, Failed);
    assert app.View() == HomeScreen(false) && app.error == Some(GenerationFailed);

    request := app.GenerateQuestions(payload, Generated([first, second]));
    assert app.error == None;
    assert app.View() == QuizScreen(first, 1, 2, None);

    app.Answer(first.correctChoiceIndex);
    app.Next();
    assert app.View() == QuizScreen(second, 2, 2, None);

    app.Answer(second.correctChoiceIndex);
    app.Next();
    assert app.currentQuestionIndex == 1;

    app.Submit();
    assert app.userAnswers == [Some(first.correctChoiceIndex), Some(second.correctChoiceIndex)];
    assert app.View().ResultsScreen?;

    app.Restart();
    assert app.View() == HomeScreen(false);
  }
}
