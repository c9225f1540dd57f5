/**
 * The post-game survey's data: the five questions, the translation keys each one uses, and
 * the shape of the answers. Everything here is constant; the lemmas state how the two
 * constant tables agree with each other.
 */
module Survey {
  import opened Wrappers

  datatype QuestionType = Radio | Text | Slider | Emoji | YesNo

  /**
   * One choice of an emoji question: the emoji shown, its label (a translation key) and
   * the value stored as the answer.
   */
  datatype EmojiChoice = EmojiChoice(emoji: string, labelKey: string, value: string)

  /** A question; the optional parts are present only for the types that use them. */
  datatype SurveyQuestion = SurveyQuestion(
    id: string,
    kind: QuestionType,
    question: string,
    options: Option<seq<string>>,
    min: Option<int>,
    max: Option<int>,
    emojis: Option<seq<EmojiChoice>>,
    required: bool)

  /** An answer is either a chosen or typed string or a number (the slider's). */
  datatype Answer = Chosen(text: string) | Count(n: int)

  /** The answers, by question id. */
  type SurveyAnswers = map<string, Answer>

  /** The translation keys of one question. */
  datatype QuestionKeys = QuestionKeys(
    question: string,
    options: Option<seq<string>>,
    placeholder: Option<string>,
    labels: Option<seq<string>>)

  /** The question ids, in the order the survey asks them. */
  const QuestionIds: seq<string> :=
    ["play_again", "favorite_games", "stars_earned", "stars_feeling", "friends_stars"]

  /** The translation keys of every question, by id. */
  const SurveyQuestionKeys: map<string, QuestionKeys> := map[
    "play_again" := QuestionKeys("play_again_question",
      Some(["play_again_tomorrow", "play_with_friends_tomorrow", "dont_want_to_play"]), None, None),
    "favorite_games" := QuestionKeys("favorite_games_question", None, Some("favorite_games_placeholder"), None),
    "stars_earned" := QuestionKeys("stars_earned_question", None, None, None),
    "stars_feeling" := QuestionKeys("stars_feeling_question", None, None, Some(["sad", "okay", "happy"])),
    "friends_stars" := QuestionKeys("friends_stars_question", None, None, None)
  ]

  /** The questions, in order. */
  const SurveyQuestions: seq<SurveyQuestion> := [
    SurveyQuestion("play_again", Radio, "play_again_question",
      Some(["play_again_tomorrow", "play_with_friends_tomorrow", "dont_want_to_play"]),
      None, None, None, true),
    SurveyQuestion("favorite_games", Text, "favorite_games_question", None, None, None, None, false),
    SurveyQuestion("stars_earned", Slider, "stars_earned_question", None, Some(0), Some(15), None, true),
    SurveyQuestion("stars_feeling", Emoji, "stars_feeling_question", None, None, None,
      Some([EmojiChoice("😔", "sad", "sad"), EmojiChoice("😐", "okay", "okay"),
            EmojiChoice("😊", "happy", "happy")]),
      true),
    SurveyQuestion("friends_stars", YesNo, "friends_stars_question", None, None, None, None, true)
  ]

  /**
   * A question carries what its type needs: options for a radio question, a range with
   * `min <= max` for a slider, choices whose stored value is their label for an emoji
   * question.
   */
  predicate WellFormed(q: SurveyQuestion)
  {
    && (q.kind == Radio ==> q.options.Some? && q.options.value != [])
    && (q.kind == Slider ==> q.min.Some? && q.max.Some? && q.min.value <= q.max.value)
    && (q.kind == Emoji ==>
          (q.emojis.Some? && q.emojis.value != [] && forall c :: c in q.emojis.value ==> c.value == c.labelKey))
  }

  /** The labels of a list of emoji choices. */
  function Labels(choices: seq<EmojiChoice>): (labels: seq<string>)
    ensures |labels| == |choices|
    ensures forall i :: 0 <= i < |choices| ==> labels[i] == choices[i].labelKey
  {
    if choices == [] then [] else [choices[0].labelKey] + Labels(choices[1..])
  }

  /** There are five questions, with the ids in order, and no id occurs twice. */
  lemma QuestionsInOrder()
    ensures |SurveyQuestions| == 5
    ensures forall i :: 0 <= i < |SurveyQuestions| ==> SurveyQuestions[i].id == QuestionIds[i]
    ensures forall i, j :: 0 <= i < j < |QuestionIds| ==> QuestionIds[i] != QuestionIds[j]
  {
  }

  /** Every question is well formed; `favorite_games` is the only optional one. */
  lemma QuestionsWellFormed()
    ensures forall q :: q in SurveyQuestions ==> WellFormed(q)
    ensures forall q :: q in SurveyQuestions ==> (!q.required <==> q.id == "favorite_games")
    ensures SurveyQuestions[2].min == Some(0) && SurveyQuestions[2].max == Some(15)
  {
  }

  /** The key table has exactly the question ids as its keys. */
  lemma KeyTableCoversIds()
    ensures SurveyQuestionKeys.Keys == set i | 0 <= i < |QuestionIds| :: QuestionIds[i]
  {
    var ids := set i | 0 <= i < |QuestionIds| :: QuestionIds[i];
    assert ids == {"play_again", "favorite_games", "stars_earned", "stars_feeling", "friends_stars"} by {
      assert QuestionIds[0] in ids && QuestionIds[1] in ids && QuestionIds[2] in ids;
      assert QuestionIds[3] in ids && QuestionIds[4] in ids;
    }
  }

  /** Every question's key is the one the key table gives under the question's id. */
  lemma QuestionKeysAgree()
    ensures forall q :: q in SurveyQuestions ==>
      q.id in SurveyQuestionKeys && SurveyQuestionKeys[q.id].question == q.question
  {
  }

  /**
   * The radio question's options are the `play_again` option keys, and the emoji question's
   * labels are the `stars_feeling` labels.
   */
  lemma ChoicesAgree()
    ensures SurveyQuestions[0].kind == Radio && SurveyQuestions[0].options == SurveyQuestionKeys["play_again"].options
    ensures SurveyQuestions[3].kind == Emoji && SurveyQuestions[3].emojis.Some?
    ensures Some(Labels(SurveyQuestions[3].emojis.value)) == SurveyQuestionKeys["stars_feeling"].labels
  {
    assert Labels(SurveyQuestions[3].emojis.value) == ["sad", "okay", "happy"];
  }
}
