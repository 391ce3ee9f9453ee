/** Fixture data (constants.ts). */
module Constants {
  import opened Wrappers
  import opened Types

  /** The fallback test the runner uses when it is opened without generated questions. */
  const MockTest: Test := Test(
    "mock-test-1",
    "React Fundamentals Mock Test",
    "React",
    15,
    [
      Question(
        "q1", MultipleChoice, "What is JSX?",
        Some([QuestionOption("q1-o1", "A JavaScript syntax extension"),
              QuestionOption("q1-o2", "A templating language for JavaScript")]),
        Single("q1-o1"),
        "JSX is a syntax extension for JavaScript that lets you write HTML-like markup inside a JavaScript file."),
      Question(
        "q2", ShortAnswer, "What hook is used to add state to a functional component?",
        None,
        Single("useState"),
        "The `useState` hook is used to declare state variables in functional components.")
    ])
}
