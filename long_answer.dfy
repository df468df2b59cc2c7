/** The free-text questions q3 ("challenges") and q4 ("anything else"): one text area,
    a live word count, and a submit that is let through only for 10 to 200 words.
    The two components are the same code with a different answer key, so one class
    models both. */
module LongAnswer {
  import opened Common
  import opened Text
  import opened JsValue
  import opened WordCounting

  datatype QuestionKey = Q3 | Q4

  function KeyName(key: QuestionKey): string {
    if key == Q3 then "q3" else "q4"
  }

  class LongAnswerForm {
    const key: QuestionKey
    var answer: string
    var wordCount: nat
    var isValidWordCount: bool

    /** The two derived state cells agree with the answer, as the counting effect
        leaves them after every change of the answer. */
    ghost predicate Valid()
      reads this
    {
      wordCount == WordCount(answer) && isValidWordCount == IsValidWordCount(wordCount)
    }

    /** A fresh form: empty answer, count 0, not valid. */
    constructor (key: QuestionKey)
      ensures Valid()
      ensures this.key == key && answer == "" && wordCount == 0 && !isValidWordCount
    {
      this.key := key;
      answer := "";
      wordCount := 0;
      isValidWordCount := false;
    }

    /** Typing into the text area, followed by the counting effect. */
    method SetAnswer(text: string)
      modifies this
      ensures Valid()
      ensures answer == text
      ensures isValidWordCount <==> 10 <= Words(text) <= 200
    {
      answer := text;
      var words := SplitOnSpaceRuns(Strip(answer, IsJsSpace));
      wordCount := if Strip(answer, IsJsSpace) == "" then 0 else |words|;
      isValidWordCount := wordCount >= 10 && wordCount <= 200;
      WordCountIsWords(text);
    }

    /** The hydration effect: when `previousAnswers` is truthy and its property named
        by the key is truthy, the answer becomes `String(...)` of that property. The
        application passes `answers.q3 || ''`, a string, whose `q3` property is
        undefined, so from there the answer is never restored. */
    method Hydrate(previousAnswers: Value)
      requires Valid()
      modifies this
      ensures Valid()
      ensures var stored := Prop(previousAnswers, KeyName(key));
        answer == if Truthy(previousAnswers) && Truthy(stored.value)
                  then ToString(stored.value) else old(answer)
      ensures previousAnswers.Str? ==> answer == old(answer)
    {
      if Truthy(previousAnswers) {
        var stored := Prop(previousAnswers, KeyName(key));
        if Truthy(stored.value) {
          SetAnswer(ToString(stored.value));
        }
      }
    }

    /** The submit handler: `onNext({[key]: answer})` with the untrimmed answer,
        called only when the count is between 10 and 200 words. */
    method Submit() returns (sent: Option<Value>)
      requires Valid()
      ensures sent.Some? <==> 10 <= Words(answer) <= 200
      ensures sent.Some? ==> sent.value == Obj(map[KeyName(key) := Str(answer)])
    {
      WordCountIsWords(answer);
      if isValidWordCount {
        sent := Some(Obj(map[KeyName(key) := Str(answer)]));
      } else {
        sent := None;
      }
    }

    /** The submit button is disabled exactly when the count is out of range. */
    function SubmitDisabled(): (disabled: bool)
      reads this
      requires Valid()
      ensures disabled <==> !(10 <= Words(answer) <= 200)
    {
      WordCountIsWords(answer);
      !isValidWordCount
    }
  }
}
