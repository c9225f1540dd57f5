/**
 * The translation tables and `getTranslation` of src/translations/index.ts.
 *
 * `UI_TEXTS` is two object literals that define several keys twice; an object literal
 * defines its properties in order, so a later definition overwrites an earlier one. The
 * model keeps each literal as its entries in source order (grouped by the commented
 * sections of the file) and builds the table with `FromEntries`, whose last-wins rule is
 * proved in `LastWins`.
 */
module Translations {
  import opened Wrappers
  import opened EcmaString

  /** The two supported languages (`Language` of src/contexts/LanguageContext.tsx:4). */
  datatype Language = Hi | En

  /** One property definition `key: value` of an object literal. */
  type Entry = (string, string)

  /** The object an object literal with these property definitions, in this order, evaluates to. */
  function FromEntries(es: seq<Entry>): (m: map<string, string>)
  {
    if es == [] then map[]
    else
      var last := es[|es| - 1];
      FromEntries(es[..|es| - 1])[last.0 := last.1]
  }

  /** The keys of the object are exactly the keys some entry defines. */
  lemma {:induction false} DefinedKeys(es: seq<Entry>, k: string)
    ensures k in FromEntries(es) <==> exists i :: 0 <= i < |es| && es[i].0 == k
  {
    if es != [] {
      var n := |es| - 1;
      DefinedKeys(es[..n], k);
      if exists i :: 0 <= i < |es| && es[i].0 == k {
        var i :| 0 <= i < |es| && es[i].0 == k;
        if i < n {
          assert es[..n][i].0 == k;
        }
      }
      if exists i :: 0 <= i < n && es[..n][i].0 == k {
        var i :| 0 <= i < n && es[..n][i].0 == k;
        assert es[i].0 == k;
      }
    }
  }

  /** A key is bound to the value of its last definition. */
  lemma {:induction false} LastWins(es: seq<Entry>, i: nat)
    requires i < |es|
    requires forall j :: i < j < |es| ==> es[j].0 != es[i].0
    ensures es[i].0 in FromEntries(es)
    ensures FromEntries(es)[es[i].0] == es[i].1
  {
    if i < |es| - 1 {
      LastWins(es[..|es| - 1], i);
    }
  }

  /** A key no entry defines is not a key of the object. */
  lemma NotDefined(es: seq<Entry>, k: string)
    requires forall i :: 0 <= i < |es| ==> es[i].0 != k
    ensures k !in FromEntries(es)
  {
    DefinedKeys(es, k);
  }

  /** Defining the entries of `b` after those of `a` overrides `a` where the two overlap. */
  lemma {:induction false} FromEntriesAppend(a: seq<Entry>, b: seq<Entry>)
    ensures FromEntries(a + b) == FromEntries(a) + FromEntries(b)
    decreases |b|
  {
    if b == [] {
      assert a + b == a;
    } else {
      var n := |b| - 1;
      assert (a + b)[..|a + b| - 1] == a + b[..n];
      assert (a + b)[|a + b| - 1] == b[n];
      FromEntriesAppend(a, b[..n]);
      var m1, m2 := FromEntries(a), FromEntries(b[..n]);
      assert (m1 + m2)[b[n].0 := b[n].1] == m1 + m2[b[n].0 := b[n].1];
    }
  }

  // index.ts:49-50
  const HiNavigation: seq<Entry> := [
    ("language_switcher", "भाषा"),
    ("english", "English")
  ]

  // index.ts:53-58
  const HiIntro: seq<Entry> := [
    ("intro.do_you_know", "क्या आप इस शब्द को जानते हैं?"),
    ("intro.yes_i_know", "हाँ, मैं जानता हूँ!"),
    ("intro.no_tell_more", "नहीं, मुझे और बताएं"),
    ("intro.skip_word", "इस शब्द को छोड़ें"),
    ("intro.lets_draw", "आइए चित्र बनाते हैं!"),
    ("hindi", "हिंदी")
  ]

  // index.ts:61-64
  const HiGameScreens: seq<Entry> := [
    ("draw_your_word", "अपना %word% बनाएं!"),
    ("now_try_this_twist", "अब यह ट्विस्ट करके देखें!"),
    ("say_sentence_with_word", "\"%word%\" के साथ एक वाक्य बोलें!"),
    ("amazing_work", "शानदार काम!")
  ]

  // index.ts:67-69
  const HiInstructions: seq<Entry> := [
    ("use_creativity_to_draw", "अपनी रचनात्मकता का उपयोग करके बनाएं!"),
    ("record_sentence_instruction", "\"%word%\" शब्द वाला वाक्य बोलकर रिकॉर्ड करें"),
    ("completed_all_steps", "आपने सभी चरण पूरे किए! अगले शब्द के लिए तैयार हैं?")
  ]

  // index.ts:72-81
  const HiControls: seq<Entry> := [
    ("pick_a_color", "रंग चुनें:"),
    ("clear_all", "सभी साफ करें"),
    ("undo", "वापस करें"),
    ("im_done_drawing", "मैंने बनाना खत्म किया! ✏️"),
    ("continue", "जारी रखें! ✨"),
    ("record_sentence", "वाक्य रिकॉर्ड करें 🎤"),
    ("listening", "सुन रहा हूं..."),
    ("next_word", "अगला शब्द 📝"),
    ("complete_day_1", "दिन 1 पूरा करें ✨"),
    ("play_again", "🎮 फिर से खेलें")
  ]

  // index.ts:84-91
  const HiCelebrate: seq<Entry> := [
    ("amazing_creativity", "शानदार रचनात्मकता!"),
    ("wonderful_drawing", "क्या शानदार चित्र है!"),
    ("so_artistic", "आप कितने कलाकार हैं!"),
    ("fantastic_work", "शानदार काम!"),
    ("beautiful_imagination", "सुंदर कल्पना!"),
    ("your_drawing_wonderful", "आपका \"%word%\" का चित्र बहुत सुंदर है!"),
    ("game_complete", "🏆 खेल पूरा हुआ! 🏆"),
    ("round_of", "राउंड %current% का %total%")
  ]

  // index.ts:94-102
  const HiSurvey: seq<Entry> := [
    ("day_1_complete", "दिन 1 पूरा!"),
    ("congratulations_day_1", "बधाई हो! आपने 7 में से दिन 1 पूरा किया है।"),
    ("did_you_know", "क्या आप जानते हैं?"),
    ("7_days_best_chance", "इस खेल को 7 दिन तक खेलने से सीखे गए शब्दों को याद रखने और स्मृति सुधारने की सबसे अच्छी संभावना बनती है!"),
    ("continue_to_survey", "सर्वेक्षण पर जाएं 📝"),
    ("question_of", "प्रश्न %current% का %total%"),
    ("previous", "← पिछला"),
    ("next", "अगला →"),
    ("complete_survey", "सर्वेक्षण पूरा करें ✨")
  ]

  // index.ts:105-123
  const HiSurveyQuestions: seq<Entry> := [
    ("play_again_question", "क्या आप यह खेल फिर से खेलना चाहते हैं?"),
    ("play_again_tomorrow", "हां, मैं कल खेलना चाहता हूं"),
    ("play_with_friends_tomorrow", "हां, मैं कल दोस्तों के साथ खेलना चाहता हूं"),
    ("dont_want_to_play", "मैं यह खेल नहीं खेलना चाहता"),
    ("favorite_games_question", "क्या आपके पास कोई पसंदीदा कंप्यूटर या मोबाइल गेम हैं?"),
    ("favorite_games_placeholder", "अपने पसंदीदा गेम के बारे में बताएं..."),
    ("stars_earned_question", "आपने कितने तारे कमाए?"),
    ("stars", "तारे"),
    ("stars_feeling_question", "उन तारों को कमाने के बारे में आप कैसा महसूस करते हैं?"),
    ("sad", "उदास"),
    ("okay", "ठीक"),
    ("happy", "खुश"),
    ("friends_stars_question", "क्या आपके दोस्तों ने कोई तारे कमाए?"),
    ("yes", "हां"),
    ("no", "नहीं")
  ]

  // index.ts:126-131
  const HiEnd: seq<Entry> := [
    ("thank_you_for_playing", "खेलने के लिए धन्यवाद!"),
    ("game_complete_message", "आपने पूरा खेल पूरा कर लिया है! हमें उम्मीद है कि आपको सीखने और चित्र बनाने में मज़ा आया।"),
    ("words_you_learned", "आज आपने जो शब्द सीखे"),
    ("keep_practicing_message", "इन शब्दों को बेहतर तरीके से याद रखने के लिए अभ्यास करते रहें। चित्र बनाना और बोलना आपके दिमाग को तेज़ी से सीखने में मदद करता है!"),
    ("play_again", "फिर खेलें!"),
    ("thank_you_footer", "हमारे साथ सीखने के लिए धन्यवाद! 🌟")
  ]

  // index.ts:134-136
  const HiStickers: seq<Entry> := [
    ("creative", "रचनात्मक"),
    ("clear_speaker", "स्पष्ट वक्ता"),
    ("fun_twist", "मजेदार ट्विस्ट")
  ]

  // index.ts:139-147
  const HiCelebrateMessages: seq<Entry> := [
    ("celebration_1", "अद्भुत रचनात्मकता!"),
    ("celebration_2", "कितना सुंदर चित्र है!"),
    ("celebration_3", "आप बहुत कलाकार हैं!"),
    ("celebration_4", "शानदार काम!"),
    ("celebration_5", "सुंदर कल्पना!"),
    ("drawing_wonderful", "आपका \"%word%\" का चित्र अद्भुत है!"),
    ("round_progress", "राउंड %currentRound% में से %totalRounds%"),
    ("complete_day_1", "दिन 1 पूरा करें ✨"),
    ("next_word", "अगला शब्द 📝")
  ]

  // index.ts:151-153
  const EnNavigation: seq<Entry> := [
    ("language_switcher", "Language"),
    ("english", "English"),
    ("hindi", "हिंदी")
  ]

  // index.ts:156-160
  const EnIntro: seq<Entry> := [
    ("intro.do_you_know", "Do you know this word?"),
    ("intro.yes_i_know", "Yes, I know it!"),
    ("intro.no_tell_more", "No, tell me more"),
    ("intro.skip_word", "Skip this word"),
    ("intro.lets_draw", "Let's Draw!")
  ]

  // index.ts:163-166
  const EnGameScreens: seq<Entry> := [
    ("draw_your_word", "Draw your %word%!"),
    ("now_try_this_twist", "Now try this twist!"),
    ("say_sentence_with_word", "Say a sentence with \"%word%\"!"),
    ("amazing_work", "Amazing work!")
  ]

  // index.ts:169-171
  const EnInstructions: seq<Entry> := [
    ("use_creativity_to_draw", "Use your creativity to draw what you imagine!"),
    ("record_sentence_instruction", "Record yourself saying a sentence that includes the word \"%word%\""),
    ("completed_all_steps", "You completed all the steps! Ready for the next word?")
  ]

  // index.ts:174-182
  const EnControls: seq<Entry> := [
    ("pick_a_color", "रंग चुनें:"),
    ("clear_all", "सब साफ़ करें"),
    ("im_done_drawing", "मेरा चित्र बन गया! ✏️"),
    ("continue", "जारी रखें! ✨"),
    ("record_sentence", "वाक्य रिकॉर्ड करें 🎤"),
    ("listening", "सुन रहे हैं..."),
    ("next_word", "अगला शब्द 📝"),
    ("complete_day_1", "दिन 1 पूरा करें ✨"),
    ("play_again", "🎮 फिर खेलें")
  ]

  // index.ts:185-192
  const EnCelebrate: seq<Entry> := [
    ("amazing_creativity", "Amazing creativity!"),
    ("wonderful_drawing", "What a wonderful drawing!"),
    ("so_artistic", "You're so artistic!"),
    ("fantastic_work", "Fantastic work!"),
    ("beautiful_imagination", "Beautiful imagination!"),
    ("your_drawing_wonderful", "Your drawing of \"%word%\" is wonderful!"),
    ("game_complete", "🏆 Game Complete! 🏆"),
    ("round_of", "Round %current% of %total%")
  ]

  // index.ts:195-200
  const EnSurvey: seq<Entry> := [
    ("day_1_complete", "Day 1 Complete!"),
    ("congratulations_day_1", "Congratulations! You've completed Day 1 of 7."),
    ("did_you_know", "Did you know?"),
    ("7_days_best_chance", "Playing this game for 7 days creates the best chance of learning and improving memory of the words you've practiced!"),
    ("continue_to_survey", "Continue to Survey 📝"),
    ("question_of", "Question %current% of %total%")
  ]

  // index.ts:202-210
  const EnSurveyRepeated: seq<Entry> := [
    ("day_1_complete", "दिन 1 पूरा हुआ!"),
    ("congratulations_day_1", "बधाई हो! आपने 7 दिनों में से दिन 1 पूरा कर लिया है।"),
    ("did_you_know", "क्या आप जानते हैं?"),
    ("7_days_best_chance", "इस गेम को 7 दिन तक खेलने से उन शब्दों को सीखने और याददाश्त बेहतर बनाने का सबसे अच्छा मौका मिलता है जिनका आपने अभ्यास किया है!"),
    ("continue_to_survey", "सर्वेक्षण पर जाएं 📝"),
    ("question_of", "प्रश्न %current% में से %total%"),
    ("previous", "← पिछला"),
    ("next", "अगला →"),
    ("complete_survey", "सर्वेक्षण पूरा करें ✨")
  ]

  // index.ts:213-231
  const EnSurveyQuestions: seq<Entry> := [
    ("play_again_question", "Would you like to play this game again?"),
    ("play_again_tomorrow", "Yes, I want to play tomorrow"),
    ("play_with_friends_tomorrow", "Yes, I want to play with friends tomorrow"),
    ("dont_want_to_play", "I don't want to play this game"),
    ("favorite_games_question", "Do you have any favourite computer or mobile games?"),
    ("favorite_games_placeholder", "Tell us about your favorite games..."),
    ("stars_earned_question", "How many stars did you earn?"),
    ("stars", "stars"),
    ("stars_feeling_question", "How do you feel about earning those stars?"),
    ("sad", "Sad"),
    ("okay", "Okay"),
    ("happy", "Happy"),
    ("friends_stars_question", "Did your friends earn any stars?"),
    ("yes", "Yes"),
    ("no", "No")
  ]

  // index.ts:234-239
  const EnEnd: seq<Entry> := [
    ("thank_you_for_playing", "Thank you for playing!"),
    ("game_complete_message", "You've completed the entire game! We hope you had fun learning and drawing."),
    ("words_you_learned", "Words You Learned Today"),
    ("keep_practicing_message", "Keep practicing these words to remember them better. Drawing and speaking helps your brain learn faster!"),
    ("play_again", "Play Again!"),
    ("thank_you_footer", "Thank you for learning with us! 🌟")
  ]

  // index.ts:242-244
  const EnStickers: seq<Entry> := [
    ("creative", "Creative"),
    ("clear_speaker", "Clear Speaker"),
    ("fun_twist", "Fun Twist")
  ]

  // index.ts:247-255
  const EnCelebrateMessages: seq<Entry> := [
    ("celebration_1", "Amazing creativity!"),
    ("celebration_2", "What a wonderful drawing!"),
    ("celebration_3", "You're so artistic!"),
    ("celebration_4", "Fantastic work!"),
    ("celebration_5", "Beautiful imagination!"),
    ("drawing_wonderful", "Your drawing of \"%word%\" is wonderful!"),
    ("round_progress", "Round %currentRound% of %totalRounds%"),
    ("complete_day_1", "Complete Day 1 ✨"),
    ("next_word", "Next Word 📝")
  ]

  // index.ts:258-260
  const EnControlsRepeated: seq<Entry> := [
    ("pick_a_color", "Pick a Color:"),
    ("clear_all", "Clear All"),
    ("im_done_drawing", "I'm Done Drawing! ✏️")
  ]

  /** `UI_TEXTS.hi`, its sections in source order. */
  const HiUiTexts: seq<Entry> := HiNavigation + HiIntro + HiGameScreens + HiInstructions + HiControls
    + HiCelebrate + HiSurvey + HiSurveyQuestions + HiEnd + HiStickers + HiCelebrateMessages

  /** `UI_TEXTS.en`, its sections in source order. */
  const EnUiTexts: seq<Entry> := EnNavigation + EnIntro + EnGameScreens + EnInstructions + EnControls
    + EnCelebrate + EnSurvey + EnSurveyRepeated + EnSurveyQuestions + EnEnd + EnStickers
    + EnCelebrateMessages + EnControlsRepeated

  /** `UI_TEXTS[language]`. */
  function UiTexts(l: Language): map<string, string>
  {
    FromEntries(if l == Hi then HiUiTexts else EnUiTexts)
  }

  /** The English table is the union of its sections, later sections overriding earlier ones. */
  lemma EnBySection()
    ensures UiTexts(En) == FromEntries(EnNavigation) + FromEntries(EnIntro) + FromEntries(EnGameScreens)
      + FromEntries(EnInstructions) + FromEntries(EnControls) + FromEntries(EnCelebrate)
      + FromEntries(EnSurvey) + FromEntries(EnSurveyRepeated) + FromEntries(EnSurveyQuestions)
      + FromEntries(EnEnd) + FromEntries(EnStickers) + FromEntries(EnCelebrateMessages)
      + FromEntries(EnControlsRepeated)
  {
    var s := EnNavigation;
    FromEntriesAppend(s, EnIntro); s := s + EnIntro;
    FromEntriesAppend(s, EnGameScreens); s := s + EnGameScreens;
    FromEntriesAppend(s, EnInstructions); s := s + EnInstructions;
    FromEntriesAppend(s, EnControls); s := s + EnControls;
    FromEntriesAppend(s, EnCelebrate); s := s + EnCelebrate;
    FromEntriesAppend(s, EnSurvey); s := s + EnSurvey;
    FromEntriesAppend(s, EnSurveyRepeated); s := s + EnSurveyRepeated;
    FromEntriesAppend(s, EnSurveyQuestions); s := s + EnSurveyQuestions;
    FromEntriesAppend(s, EnEnd); s := s + EnEnd;
    FromEntriesAppend(s, EnStickers); s := s + EnStickers;
    FromEntriesAppend(s, EnCelebrateMessages); s := s + EnCelebrateMessages;
    FromEntriesAppend(s, EnControlsRepeated);
  }

  /** `WORDS[language]`: the display form of each word key (index.ts:4-15). */
  function Words(l: Language): map<string, string>
  {
    match l
    case Hi => map["sun" := "सूरज", "cat" := "बिल्ली", "ball" := "गेंद"]
    case En => map["sun" := "sun", "cat" := "cat", "ball" := "ball"]
  }

  /** `CLUES[language]` (index.ts:18-29). */
  function Clues(l: Language): map<string, string>
  {
    match l
    case Hi => map[
      "sun" := "यह दिन के समय आसमान में चमकता है।",
      "cat" := "एक छोटा जानवर जो म्याऊं-म्याऊं करता है।",
      "ball" := "आप इसे फेंक सकते हैं; यह उछल सकती है।"]
    case En => map[
      "sun" := "It shines in the sky in daytime.",
      "cat" := "A small animal that says meow.",
      "ball" := "You can throw it; it can bounce."]
  }

  /** `TWIST_PROMPTS[language]` (index.ts:32-43). */
  function TwistPrompts(l: Language): map<string, seq<string>>
  {
    match l
    case Hi => map[
      "sun" := ["एक छोटा सूरज बनाएं", "एक सोता हुआ सूरज बनाएं", "एक इंद्रधनुषी सूरज बनाएं"],
      "cat" := ["एक उड़ती हुई बिल्ली बनाएं", "एक सुपरहीरो बिल्ली बनाएं", "एक नाचती हुई बिल्ली बनाएं"],
      "ball" := ["एक चौकोर गेंद बनाएं", "एक उछलती गेंद बनाएं", "एक जादुई गेंद बनाएं"]]
    case En => map[
      "sun" := ["Draw a tiny sun", "Draw a sleepy sun", "Draw a rainbow sun"],
      "cat" := ["Draw a flying cat", "Draw a superhero cat", "Draw a dancing cat"],
      "ball" := ["Draw a square ball", "Draw a bouncing ball", "Draw a magic ball"]]
  }

  /** The three word tables define exactly the three game words in both languages, with three twists each. */
  lemma WordTablesComplete(l: Language)
    ensures Words(l).Keys == Clues(l).Keys == TwistPrompts(l).Keys == {"sun", "cat", "ball"}
    ensures forall w :: w in TwistPrompts(l) ==> |TwistPrompts(l)[w]| == 3
  {
  }

  /** JavaScript truthiness of an optional string: present and not empty. */
  predicate Truthy(s: Option<string>)
  {
    s.Some? && s.value != ""
  }

  /** The entry for `key` in the table `texts`, when it has one. */
  function Lookup(texts: map<string, string>, key: string): Option<string>
  {
    if key in texts then Some(texts[key]) else None
  }

  /** The table entry for `key` in language `l`, when the table has one. */
  function TableEntry(l: Language, key: string): Option<string>
  {
    Lookup(UiTexts(l), key)
  }

  /**
   * `UI_TEXTS[language][key] || fallback || key` (index.ts:266), with `texts` the table of
   * the language: the first of the entry and the fallback that is a non-empty string, else
   * the key itself.
   */
  function Resolve(texts: map<string, string>, key: string, fallback: Option<string>): (r: string)
    ensures Truthy(Lookup(texts, key)) ==> r == texts[key]
    ensures !Truthy(Lookup(texts, key)) && Truthy(fallback) ==> r == fallback.value
    ensures !Truthy(Lookup(texts, key)) && !Truthy(fallback) ==> r == key
  {
    var entry := Lookup(texts, key);
    if Truthy(entry) then entry.value
    else if Truthy(fallback) then fallback.value
    else key
  }

  /**
   * Looking up a key a literal defines yields the value of its last definition when that
   * value is not empty, and otherwise falls through to the fallback or the key.
   */
  lemma ResolveLastDefinition(es: seq<Entry>, i: nat, fallback: Option<string>)
    requires i < |es|
    requires forall j :: i < j < |es| ==> es[j].0 != es[i].0
    ensures Resolve(FromEntries(es), es[i].0, fallback)
         == if es[i].1 != "" then es[i].1 else if Truthy(fallback) then fallback.value else es[i].0
  {
    LastWins(es, i);
  }

  /** Looking up a key no definition names yields the fallback when it is not empty, else the key. */
  lemma ResolveUndefined(es: seq<Entry>, key: string, fallback: Option<string>)
    requires forall i :: 0 <= i < |es| ==> es[i].0 != key
    ensures Resolve(FromEntries(es), key, fallback) == if Truthy(fallback) then fallback.value else key
  {
    NotDefined(es, key);
  }

  /** The placeholder a replacement named `name` looks for: `%name%`. */
  function Placeholder(name: string): string
  {
    "%" + name + "%"
  }

  /**
   * The replacements applied one after another, in the order of the object's keys, each to
   * the running result (index.ts:270-272).
   */
  function ApplyReplacements(template: string, replacements: seq<(string, string)>): string
  {
    if replacements == [] then template
    else
      var n := |replacements| - 1;
      ReplaceFirst(ApplyReplacements(template, replacements[..n]),
                   Placeholder(replacements[n].0), replacements[n].1)
  }

  /**
   * `getTranslation(language, key, fallback, replacements)` as a value (index.ts:265-276),
   * with `texts` the table of the language.
   */
  function Translation(texts: map<string, string>, key: string, fallback: Option<string>,
                       replacements: Option<seq<(string, string)>>): string
  {
    ApplyReplacements(Resolve(texts, key, fallback), if replacements.Some? then replacements.value else [])
  }

  /**
   * `getTranslation`: resolve the template, then, when replacements are given, replace each
   * placeholder in turn in the running result (index.ts:265-276). `replacements` lists the
   * object's keys in the order `Object.keys` enumerates them.
   */
  method GetTranslation(l: Language, key: string, fallback: Option<string>,
                        replacements: Option<seq<(string, string)>>) returns (translation: string)
    ensures translation == Translation(UiTexts(l), key, fallback, replacements)
  {
    var texts := UiTexts(l);
    translation := Resolve(texts, key, fallback);
    if replacements.Some? {
      var reps := replacements.value;
      var i := 0;
      while i < |reps|
        invariant 0 <= i <= |reps|
        invariant translation == ApplyReplacements(Resolve(texts, key, fallback), reps[..i])
      {
        assert reps[..i + 1][..i] == reps[..i];
        translation := ReplaceFirst(translation, Placeholder(reps[i].0), reps[i].1);
        i := i + 1;
      }
      assert reps[..|reps|] == reps;
    }
  }

  /** Without replacements the resolved template is returned as it is (index.ts:269-275). */
  lemma WithoutReplacements(texts: map<string, string>, key: string, fallback: Option<string>)
    ensures Translation(texts, key, fallback, None) == Resolve(texts, key, fallback)
    ensures Translation(texts, key, fallback, Some([])) == Resolve(texts, key, fallback)
  {
  }

  /** The lookup never yields an empty string for a non-empty key. */
  lemma ResolveNonEmpty(texts: map<string, string>, key: string, fallback: Option<string>)
    requires key != ""
    ensures Resolve(texts, key, fallback) != ""
  {
  }

  /** Each application replaces the first occurrence of its placeholder in the running result. */
  lemma ApplyOneMore(template: string, replacements: seq<(string, string)>, name: string, value: string)
    ensures ApplyReplacements(template, replacements + [(name, value)])
         == ReplaceFirst(ApplyReplacements(template, replacements), Placeholder(name), value)
  {
    assert (replacements + [(name, value)])[..|replacements|] == replacements;
  }

  /**
   * The English `day_1_complete` is the Hindi text: the English literal defines the key
   * twice (index.ts:195, 202), and the later definition, in a block that repeats the Hindi
   * survey strings, wins.
   */
  lemma EnDayOneComplete()
    ensures TableEntry(En, "day_1_complete") == Some("दिन 1 पूरा हुआ!")
  {
    var k := "day_1_complete";
    assert k in FromEntries(EnSurveyRepeated) && FromEntries(EnSurveyRepeated)[k] == "दिन 1 पूरा हुआ!" by {
      LastWins(EnSurveyRepeated, 0);
    }
    assert k !in FromEntries(EnSurveyQuestions) by { NotDefined(EnSurveyQuestions, k); }
    assert k !in FromEntries(EnEnd) by { NotDefined(EnEnd, k); }
    assert k !in FromEntries(EnStickers) by { NotDefined(EnStickers, k); }
    assert k !in FromEntries(EnCelebrateMessages) by { NotDefined(EnCelebrateMessages, k); }
    assert k !in FromEntries(EnControlsRepeated) by { NotDefined(EnControlsRepeated, k); }
    EnBySection();
  }

  /** `next_word` is defined twice in English; the later definition is the one looked up. */
  lemma EnNextWord()
    ensures TableEntry(En, "next_word") == Some("Next Word 📝")
  {
    var k := "next_word";
    assert k in FromEntries(EnCelebrateMessages) && FromEntries(EnCelebrateMessages)[k] == "Next Word 📝" by {
      LastWins(EnCelebrateMessages, 8);
    }
    assert k !in FromEntries(EnControlsRepeated) by { NotDefined(EnControlsRepeated, k); }
    EnBySection();
  }

  /** The English table has no `undo` entry. */
  lemma EnNoUndo()
    ensures TableEntry(En, "undo") == None
  {
    var k := "undo";
    assert k !in FromEntries(EnNavigation) by { NotDefined(EnNavigation, k); }
    assert k !in FromEntries(EnIntro) by { NotDefined(EnIntro, k); }
    assert k !in FromEntries(EnGameScreens) by { NotDefined(EnGameScreens, k); }
    assert k !in FromEntries(EnInstructions) by { NotDefined(EnInstructions, k); }
    assert k !in FromEntries(EnControls) by { NotDefined(EnControls, k); }
    assert k !in FromEntries(EnCelebrate) by { NotDefined(EnCelebrate, k); }
    assert k !in FromEntries(EnSurvey) by { NotDefined(EnSurvey, k); }
    assert k !in FromEntries(EnSurveyRepeated) by { NotDefined(EnSurveyRepeated, k); }
    assert k !in FromEntries(EnSurveyQuestions) by { NotDefined(EnSurveyQuestions, k); }
    assert k !in FromEntries(EnEnd) by { NotDefined(EnEnd, k); }
    assert k !in FromEntries(EnStickers) by { NotDefined(EnStickers, k); }
    assert k !in FromEntries(EnCelebrateMessages) by { NotDefined(EnCelebrateMessages, k); }
    assert k !in FromEntries(EnControlsRepeated) by { NotDefined(EnControlsRepeated, k); }
    EnBySection();
  }

  /** English has no `undo` entry, so its lookup yields the fallback, or "undo" without one. */
  lemma EnUndoFallsBack(fallback: Option<string>)
    ensures Resolve(UiTexts(En), "undo", fallback) == if Truthy(fallback) then fallback.value else "undo"
  {
    EnNoUndo();
  }

  /** The English round counter template, with its two placeholders. */
  lemma EnRoundProgress()
    ensures TableEntry(En, "round_progress") == Some("Round %currentRound% of %totalRounds%")
  {
    var k := "round_progress";
    assert k in FromEntries(EnCelebrateMessages)
        && FromEntries(EnCelebrateMessages)[k] == "Round %currentRound% of %totalRounds%" by {
      LastWins(EnCelebrateMessages, 6);
    }
    assert k !in FromEntries(EnControlsRepeated) by { NotDefined(EnControlsRepeated, k); }
    EnBySection();
  }

  /**
   * A template with two placeholders and no other `%` before the second is filled in
   * position by position, provided the values hold no `$` and the first value no `%`.
   */
  lemma FillTwoPlaceholders(pre: string, name1: string, mid: string, name2: string, post: string,
                            value1: string, value2: string)
    requires '%' !in pre && '%' !in mid && '%' !in value1
    requires '$' !in value1 && '$' !in value2
    ensures ApplyReplacements(pre + Placeholder(name1) + mid + Placeholder(name2) + post,
                              [(name1, value1), (name2, value2)])
         == pre + value1 + mid + value2 + post
  {
    var template := pre + Placeholder(name1) + mid + Placeholder(name2) + post;
    var rest := mid + Placeholder(name2) + post;
    var t1 := pre + value1 + rest;
    assert ApplyReplacements(template, [(name1, value1)]) == t1 by {
      ApplyOneMore(template, [], name1, value1);
      assert template == pre + Placeholder(name1) + rest;
      ReplaceAfterPrefix(pre, Placeholder(name1), rest, value1);
    }
    var pre2 := pre + value1 + mid;
    assert ReplaceFirst(t1, Placeholder(name2), value2) == pre2 + value2 + post by {
      assert '%' !in pre2;
      assert t1 == pre2 + Placeholder(name2) + post;
      ReplaceAfterPrefix(pre2, Placeholder(name2), post, value2);
    }
    assert [(name1, value1), (name2, value2)] == [(name1, value1)] + [(name2, value2)];
    ApplyOneMore(template, [(name1, value1)], name2, value2);
  }

  /**
   * The round counter of the celebrate screen (index.ts:253, 265-275), in a table whose
   * template is the English one (`EnRoundProgress`), filled in with round numbers.
   */
  lemma RoundProgress(texts: map<string, string>, current: string, total: string)
    requires Lookup(texts, "round_progress") == Some("Round %currentRound% of %totalRounds%")
    requires '%' !in current && '$' !in current && '$' !in total
    ensures Translation(texts, "round_progress", None, Some([("currentRound", current), ("totalRounds", total)]))
         == "Round " + current + " of " + total
  {
    assert "Round %currentRound% of %totalRounds%"
        == "Round " + Placeholder("currentRound") + " of " + Placeholder("totalRounds") + "";
    FillTwoPlaceholders("Round ", "currentRound", " of ", "totalRounds", "", current, total);
  }
}
