/** The question-and-answer page (`QA`): a conversation seeded from `mockQA`
    to which every asked question is added with a fixed demo answer. */
module QAPage {
  import opened Text
  import opened MockData

  datatype QAItem = QAItem(question: string, answer: string)

  const DEMO_ANSWER: string :=
    "This is a demo response. In a real application, this would be an AI-generated answer based on your story content."

  class QA {
    var question: string
    var conversation: seq<QAItem>

    /** The page mounted: the conversation starts as the seed list. */
    constructor (seed: seq<QAItem>)
      ensures conversation == seed && question == ""
    {
      question := "";
      conversation := seed;
    }

    /** The textarea's `onChange`. */
    method EditQuestion(value: string)
      modifies this
      ensures question == value && conversation == old(conversation)
    {
      question := value;
    }

    /** The Ask button's `disabled`: the question trims to nothing. */
    function AskDisabled(): (r: bool)
      reads this
      ensures r <==> Blank(Js, question)
    {
      Trim(Js, question) == []
    }

    /** `handleSubmit` (the form's submit and Enter without Shift): refuses a
        question that trims to nothing, exactly when the button is disabled;
        otherwise appends the question as typed with the demo answer and
        clears the input. */
    method HandleSubmit() returns (toast: Toast)
      modifies this
      ensures toast.Failure? <==> old(AskDisabled())
      ensures toast.Failure? ==>
        toast.message == "Please enter a question" && conversation == old(conversation) && question == old(question)
      ensures toast.Success? ==>
        && toast.message == "Answer generated!"
        && conversation == old(conversation) + [QAItem(old(question), DEMO_ANSWER)]
        && question == ""
    {
      if Trim(Js, question) == [] {
        return Failure("Please enter a question");
      }
      var newQA := QAItem(question, DEMO_ANSWER);
      conversation := conversation + [newQA];
      question := "";
      toast := Success("Answer generated!");
    }
  }
}
