# Mimick Creator in Dafny

Mimick Creator is a drawing game for children. The player sees a word, draws it on a canvas, and
celebrates. This repeats for three words (sun, cat, ball), and then a short survey ends the game.
The interface is in Hindi or English. This project models the logic behind it and proves its
properties:

- **Game flow** (`game_flow.dfy`):
  - the game record;
  - `nextScreen` as a pure step function, and the hook's state as a class;
  - `resetGame`, `isGameComplete`, `getClue` and `getTwistPrompt`;
  - an invariant that characterises every state a game can reach, plus a closed form of the whole
    nine-step run.
- **Translations** (`translations.dfy`, `ecma_string.dfy`):
  - the translation tables, built the way an object literal is, so a key's last definition wins;
  - `getTranslation`: lookup, then fallback, then the key itself, followed by placeholder
    replacement with the exact semantics of ECMAScript's `String.prototype.replace` for a string
    pattern (first occurrence only, `$` patterns expanded).
- **Language provider** (`language_context.dfy`):
  - the saved language and how it is persisted in key-value storage;
  - `t`;
  - the `useLanguage` guard.
- **Drawing canvas** (`raster.dfy`, `drawing_canvas.dfy`):
  - a canvas element with a 2-D bitmap (`array2`) and its context state;
  - the component's `resizeCanvas`: the drawing is saved, the canvas is resized and filled, and the
    drawing is put back, clipped;
  - the tool effect (the eraser uses `destination-out`);
  - pointer handling: `startDrawing`, `draw`, `stopDrawing`, and the first-touch rule.
- **Play screen** (`play_screen.dfy`):
  - the undo history, which keeps the last nine snapshots and then appends the new one;
  - undo, clear and twist;
  - the speech-recognition flags.
- **Survey** (`survey.dfy`): the constant question list and its key table, with lemmas stating how
  they agree.

English-table behaviour that the model makes visible:

- The English `UI_TEXTS` literal defines `day_1_complete` twice. Looking the key up in the English
  table yields the later definition, which is the Hindi text (`EnDayOneComplete`).
- The English table has no `undo` entry, so `getTranslation` in English of `undo` without a
  fallback yields the key `"undo"` (`EnUndoFallsBack`).

## Model

| member | source | states |
|---|---|---|
| GameFlow.Next | src/hooks/useGameState.ts:37-66 | Intro leads to play, play to celebrate, and celebrate to the next round's intro or, in the last round, to the survey. The total is kept. The round grows by one exactly when leaving celebrate before the last round. The current word is appended to the completed words exactly when leaving celebrate. The result is the survey exactly from the survey, or from celebrate in the last round. The word changes only with the round. The survey is a fixed point. |
| GameFlow.InitialReachable | src/hooks/useGameState.ts:29-35 | The initial record is round 1, intro, `sun`, nothing completed, three rounds, and it satisfies the reachability invariant. |
| GameFlow.NextReachable | src/hooks/useGameState.ts:37-66 | From every reachable record `nextScreen` is defined (the word index is in range) and leads to a reachable record. |
| GameFlow.Run | src/hooks/useGameState.ts:29-66 | Every record reached by `k` calls of `nextScreen` from the start is reachable. |
| GameFlow.RunClosedForm | src/hooks/useGameState.ts:14-66 | Steps 0 to 8 go intro, play, celebrate for round `k/3+1`, with the earlier words completed. From step 9 on, the game is at the survey in round 3 with `ball`, and all three words are completed. |
| GameFlow.CompleteAfterNineSteps | src/hooks/useGameState.ts:85 | `GameComplete` (`isGameComplete`) holds exactly from the ninth `nextScreen` on, and never on the celebrate screen. |
| GameFlow.RunMonotone | src/hooks/useGameState.ts:37-66 | Along a game the round never decreases, and the completed words only grow by extension. |
| GameFlow.TwistPrompt | src/hooks/useGameState.ts:80-83 | The prompt chosen for any random value in [0, 1) is one of the word's prompts. |
| GameFlow.EveryTwistPromptReachable | src/hooks/useGameState.ts:80-83 | Each of the three prompts is chosen for some random value. |
| GameFlow.AgreesWithEnglishTables | src/hooks/useGameState.ts:14-26 | The hook's `Clue` and `TwistPromptList` equal the English translation tables, and its words are the tables' keys. |
| GameFlow.GameStore.constructor | src/hooks/useGameState.ts:29-35 | The hook starts from the initial record, which is reachable. |
| GameFlow.GameStore.NextScreen | src/hooks/useGameState.ts:37-66 | The new record is `Next` of the old one, and the record stays reachable. |
| GameFlow.GameStore.ResetGame | src/hooks/useGameState.ts:69-77 | From any record, the hook goes back to the initial, reachable record. |
| Translations.DefinedKeys | src/translations/index.ts:46-262 | A key is in `FromEntries` of a literal's definitions exactly when some definition names it. |
| Translations.LastWins | src/translations/index.ts:46-262 | A key maps to the value of its last definition in the literal. |
| Translations.NotDefined | src/translations/index.ts:46-262 | A key that no definition names is absent from the table. |
| Translations.FromEntriesAppend | src/translations/index.ts:46-262 | Definitions that come later override earlier ones: the table of `a + b` is the table of `a` updated with the table of `b`. |
| Translations.EnBySection | src/translations/index.ts:149-261 | The English table is the union of its commented sections in source order, later ones overriding earlier ones. |
| Translations.WordTablesComplete | src/translations/index.ts:4-43 | In both languages the word, clue and twist-prompt tables have exactly the keys sun, cat and ball, with three prompts per word. |
| Translations.ResolveLastDefinition | src/translations/index.ts:266 | `Resolve` on a table built by `FromEntries`: a key the literal defines yields its last definition when that is non-empty, and otherwise the fallback when non-empty, else the key. |
| Translations.ResolveUndefined | src/translations/index.ts:266 | `Resolve` of a key that no definition of the literal names yields the fallback when it is non-empty, else the key. |
| Translations.GetTranslation | src/translations/index.ts:265-276 | The loop's result equals `Translation`: `Resolve` of the key, then each replacement applied in turn to the running result with `ReplaceFirst`. |
| Translations.WithoutReplacements | src/translations/index.ts:269-275 | Without replacements, or with an empty set of them, the resolved template is returned unchanged. |
| Translations.ResolveNonEmpty | src/translations/index.ts:266 | For a non-empty key, the lookup never yields the empty string. |
| Translations.ApplyOneMore | src/translations/index.ts:270-273 | Each further replacement replaces the first occurrence of its `%name%` in the result so far. |
| Translations.EnDayOneComplete | src/translations/index.ts:195-202 | English `day_1_complete` resolves to the Hindi text of its second definition. |
| Translations.EnNextWord | src/translations/index.ts:180-255 | English `next_word` resolves to its later definition, "Next Word 📝". |
| Translations.EnNoUndo | src/translations/index.ts:149-261 | The English table has no `undo` key. |
| Translations.EnUndoFallsBack | src/translations/index.ts:266 | English `undo` resolves to the fallback when one is given, else to "undo". |
| Translations.EnRoundProgress | src/translations/index.ts:253 | The English `round_progress` template is "Round %currentRound% of %totalRounds%". |
| Translations.FillTwoPlaceholders | src/translations/index.ts:269-275 | A template with two placeholders is filled in position by position, when no `%` precedes the second placeholder and the values hold no `$`. |
| Translations.RoundProgress | src/translations/index.ts:253-275 | With the English template, filling in the two round numbers gives "Round c of t". |
| EcmaString.IndexOf | src/translations/index.ts:272 | The search result is -1 or an index at or after the start from which the pattern fits. |
| EcmaString.IndexOfFinds | src/translations/index.ts:272 | The search returns -1 exactly when the pattern does not occur; otherwise it returns an occurrence with no earlier one. |
| EcmaString.ReplaceWithoutOccurrence | src/translations/index.ts:272 | `replace` returns the string unchanged when the placeholder does not occur. |
| EcmaString.SubstitutionWithoutDollar | src/translations/index.ts:272 | `GetSubstitution` inserts a replacement value without `$` literally. |
| EcmaString.ReplaceFirstAt | src/translations/index.ts:272 | `ReplaceFirst` (`replace` with a string pattern) rewrites exactly the first occurrence, with `GetSubstitution` of the replacement value. |
| EcmaString.LaterOccurrenceKept | src/translations/index.ts:272 | A second occurrence of the placeholder survives `replace`, shifted by the change in length. |
| EcmaString.ShiftedOccurrence | src/translations/index.ts:272 | Splicing text before an occurrence shifts that occurrence without destroying it. |
| EcmaString.MatchedReferenceKeepsString | src/translations/index.ts:272 | Replacing with `$&` leaves any string unchanged. |
| EcmaString.OnlyFirstReplaced | src/translations/index.ts:272 | In a template with `%word%` twice, only the first occurrence is filled in. |
| EcmaString.DollarReferences | src/translations/index.ts:272 | `$$` expands to `$` and `$&` to the matched placeholder. |
| EcmaString.DollarPatternsExpanded | src/translations/index.ts:272 | A replacement value containing `$` patterns is expanded, not inserted literally. |
| EcmaString.ReplaceAfterPrefix | src/translations/index.ts:272 | When the placeholder's first character does not occur before it, that placeholder is the one replaced. |
| LanguageContext.GetSavedLanguage | src/contexts/LanguageContext.tsx:19-23 | The result is English exactly when there is a window and the stored value is "en". Without a window it is Hindi. |
| LanguageContext.SavedLanguageRoundTrip | src/contexts/LanguageContext.tsx:19-31 | A language stored by `setLanguage` is the one read back. |
| LanguageContext.UnknownCodeIsHindi | src/contexts/LanguageContext.tsx:22 | A missing value, or a value that is neither code, reads as Hindi. |
| LanguageContext.LanguageProvider.constructor | src/contexts/LanguageContext.tsx:26 | The provider starts in the saved language. |
| LanguageContext.LanguageProvider.SetLanguage | src/contexts/LanguageContext.tsx:28-31 | The current language becomes `l`, storage gains the key with `l`'s code, and reading it back yields `l`. |
| LanguageContext.LanguageProvider.T | src/contexts/LanguageContext.tsx:34-36 | `t` is `getTranslation` in the current language. |
| LanguageContext.UseLanguageGivesProvider | src/contexts/LanguageContext.tsx:49-55 | `UseLanguage` inside a provider hands back that very provider (its language and `t`); outside every provider it is the error with the source's message. |
| Raster.OverlayAt | src/components/DrawingCanvas.tsx:43 | `Overlay` (`putImageData` at the origin) sets the pixels the image reaches and keeps the others. |
| Raster.ResizeKeepsOverlap | src/components/DrawingCanvas.tsx:23-47 | After `Resized`, a pixel inside both the old and the new bounds keeps its value, and every other pixel is background. |
| Raster.ResizeFromNothing | src/components/DrawingCanvas.tsx:23-41 | With nothing saved (old width 0), the resized canvas is all background. |
| Raster.GrowThenShrink | src/components/DrawingCanvas.tsx:18-48 | Growing the canvas and shrinking it back restores the drawing exactly. |
| Raster.StrokeChangesCovered | src/components/DrawingCanvas.tsx:130-131 | `Stroked` sets exactly the covered pixels. |
| Raster.StrokeIdempotent | src/components/DrawingCanvas.tsx:130-131 | Stroking the same covered pixels again changes nothing. |
| Raster.DestinationOutClears | src/components/DrawingCanvas.tsx:69-75 | `Paint` under `destination-out` leaves transparency for any colour. Under `source-over` it never does, and the background colour gives background. |
| DrawingCanvas.WithLineWidth | src/components/DrawingCanvas.tsx:76 | A positive width is set. A width that is not positive leaves the state unchanged. Nothing but the width changes. |
| DrawingCanvas.ToolState | src/components/DrawingCanvas.tsx:69-76 | The eraser gives `destination-out` with an opaque stroke; the brush gives `source-over` with the current colour. The brush size becomes the line width when it is positive. Fill, cap and join are kept. |
| DrawingCanvas.EraserStrokesClear | src/components/DrawingCanvas.tsx:69-75 | Eraser strokes leave transparent pixels. Brush strokes leave the chosen colour. |
| DrawingCanvas.OnlyFirstTouch | src/components/DrawingCanvas.tsx:79-99 | `Coordinates` (`getCoordinates`) of a touch is its first contact; later contacts do not affect it, and a touch without contacts gives no point. |
| DrawingCanvas.Canvas.constructor | src/components/DrawingCanvas.tsx:140-150 | A new canvas element is 300 by 150, transparent, with a default context and an empty path. |
| DrawingCanvas.Canvas.SetDimensions | src/components/DrawingCanvas.tsx:29-30 | Setting the size replaces the bitmap with a transparent one of that size and resets the context and the path. |
| DrawingCanvas.Canvas.FillRect | src/components/DrawingCanvas.tsx:37-38 | Every pixel gets the fill colour under the current composite mode. |
| DrawingCanvas.Canvas.PutImageData | src/components/DrawingCanvas.tsx:43 | The bitmap becomes the old one overlaid with the image, clipped. |
| DrawingCanvas.Canvas.Stroke | src/components/DrawingCanvas.tsx:131 | The covered pixels get the stroke colour under the current mode, and all other pixels are kept. |
| DrawingCanvas.Component.constructor | src/components/DrawingCanvas.tsx:10-12 | The component starts with the given props and is not drawing. |
| DrawingCanvas.Component.ResizeCanvas | src/components/DrawingCanvas.tsx:18-48 | Each outcome holds exactly in its case: no context; `GetImageData` throws IndexSizeError on a zero height; no container. In those cases nothing changes. Otherwise the bitmap is `Raster.Resized` of the old one at the container's size, the context is the default with round caps and joins and the background fill, and the path is empty. |
| DrawingCanvas.Component.ApplyTool | src/components/DrawingCanvas.tsx:62-77 | With a context, the context becomes `ToolState` of the props; without one nothing changes. Its frame is the context alone. |
| DrawingCanvas.Component.Mount | src/components/DrawingCanvas.tsx:14-60 | Each sizing outcome holds exactly in its case (no context; `getImageData` throws on a zero height; no container). `onCanvasReady` fires exactly when sizing did not throw and the width is positive. On a resize the bitmap is `Resized` of the old one and the context is `ToolState` of the sized context and the props. Without a container the bitmap and path are kept and the context is `ToolState` of the old one. Without a context, or on a throw, the canvas is unchanged. The props and `isDrawing` are outside its frame. |
| DrawingCanvas.Component.WindowResize | src/components/DrawingCanvas.tsx:58 | Like `ResizeCanvas`: each outcome holds exactly in its case, and the canvas is unchanged unless it is resized. On a resize the bitmap is `Resized` of the old one and the context is the reset, sized context, so the stroke state is `source-over`, "#000000", width 1 until a prop changes. |
| DrawingCanvas.Component.SetProps | src/components/DrawingCanvas.tsx:62-77 | New props are recorded. The tool effect runs exactly when one of them changed, and then the context becomes `ToolState` of the new props. Its frame is the three props and the context, so the bitmap, the path and `isDrawing` are kept. |
| DrawingCanvas.Component.StartDrawing | src/components/DrawingCanvas.tsx:101-115 | With a context and coordinates, drawing starts and the path is just the event's point; otherwise nothing changes. Its frame is `isDrawing` and the path, so the props, bitmap and context are kept. |
| DrawingCanvas.Component.Draw | src/components/DrawingCanvas.tsx:117-132 | While drawing, with a context and coordinates, the path is extended by the point and the bitmap becomes `Raster.Stroked` of the old one with the painted stroke; otherwise nothing changes. Its frame is the path and the bitmap. |
| DrawingCanvas.Component.StopDrawing | src/components/DrawingCanvas.tsx:134-136 | The drawing flag is cleared and the props are kept. |
| PlayScreen.PushKeepsNewest | src/components/PlayScreen.tsx:30 | `Pushed` (`slice(-9)` plus the snapshot, with slice's relative indices) keeps the nine most recent entries in order and appends the snapshot, so the history holds at most ten entries. |
| PlayScreen.PopDropsLast | src/components/PlayScreen.tsx:45 | `Popped` (`slice(0, -1)`) drops exactly the last entry, and an empty history stays empty. |
| PlayScreen.PopAfterPush | src/components/PlayScreen.tsx:30-45 | Dropping the last entry right after a save gives back the earlier history, provided it had at most nine entries. |
| PlayScreen.OverlaySameSize | src/components/PlayScreen.tsx:44 | Putting back (`Overlay`) a snapshot of the canvas's own size restores exactly that snapshot. |
| PlayScreen.Component.constructor | src/components/PlayScreen.tsx:15-22 | The initial state: no canvas, red `#ef4444`, size 8, brush, empty history, empty prompt, not recording, not spoken. |
| PlayScreen.Component.SaveCanvasState | src/components/PlayScreen.tsx:24-31 | A save happens exactly when the canvas is set, has a context, and `GetImageData` succeeds (it throws IndexSizeError on a zero dimension). Then the history becomes `Pushed` (`slice(-9)` plus the snapshot) of the old history; otherwise it is unchanged. Its frame is the history alone, which stays within ten well-formed entries. |
| PlayScreen.Component.HandleCanvasReady | src/components/PlayScreen.tsx:33-36 | The canvas is set, and then one save is attempted, with the result of `SaveCanvasState`. Its frame is `canvasSet` and the history. |
| PlayScreen.Component.HandleUndo | src/components/PlayScreen.tsx:38-46 | With the canvas, a context and a non-empty history, the last snapshot is put back (`Overlay`) and dropped from the history (`Popped`); otherwise nothing changes. Its frame is the history and the bitmap. |
| PlayScreen.Component.HandleClear | src/components/PlayScreen.tsx:48-56 | With the canvas and a context, the fill colour becomes the background, the whole bitmap is `Filled` with `Paint` of the current composite mode, and the history empties; otherwise nothing changes. Its frame is the history, the context and the bitmap. |
| PlayScreen.Component.HandleTwist | src/components/PlayScreen.tsx:58-60 | The shown prompt is `TwistPrompt` of the current word, one of its twist prompts. Its frame is the prompt alone. |
| PlayScreen.Component.HandleVoiceRecord | src/components/PlayScreen.tsx:62-83 | Without a speech API, the word counts as said at once; with one, the flags wait for its events. `hasSpoken` is never reset. Its frame is `hasSpoken` alone. |
| PlayScreen.Component.OnRecognitionStart | src/components/PlayScreen.tsx:71 | Recording starts. Its frame is `isRecording` alone. |
| PlayScreen.Component.OnRecognitionEnd | src/components/PlayScreen.tsx:72-75 | Recording stops and the word counts as said. Its frame is the two flags. |
| PlayScreen.Component.OnRecognitionResult | src/components/PlayScreen.tsx:76-80 | The word counts as said. Its frame is `hasSpoken` alone. |
| PlayScreen.Component.SetColor | src/components/PlayScreen.tsx:149 | The chosen colour becomes current. Its frame is the colour alone. |
| PlayScreen.ClearUnderEraserIsTransparent | src/components/PlayScreen.tsx:53-54 | Clearing while the eraser's mode is active leaves a transparent bitmap; under the brush it leaves the background colour. |
| Survey.Labels | src/types/survey.ts:64-68 | The labels of the emoji choices, one per choice, in order. |
| Survey.QuestionsInOrder | src/types/survey.ts:38-77 | There are five questions, with ids in order `play_again`, `favorite_games`, `stars_earned`, `stars_feeling`, `friends_stars`, and all ids are distinct. |
| Survey.QuestionsWellFormed | src/types/survey.ts:38-77 | Every question has what its type needs: radio options, a slider range with 0 ≤ 15, emoji values equal to labels. Only `favorite_games` is optional. |
| Survey.KeyTableCoversIds | src/types/survey.ts:17-36 | The key table's keys are exactly the question ids. |
| Survey.QuestionKeysAgree | src/types/survey.ts:17-77 | Each question's key equals the key table's `question` under its id. |
| Survey.ChoicesAgree | src/types/survey.ts:17-68 | The radio options equal `play_again.options`, and the emoji labels equal `stars_feeling.labels`. |

## Left out

- I/O, the DOM and React are not modelled. Each hook or component is a class whose methods run one
  handler to completion, and React's batched, asynchronous state updates are not modelled. The
  `isDrawing` value that `draw` reads is taken to be current, not the one captured at the last
  render.
- Randomness: `Math.random()` is the `random` parameter of `GameFlow.TwistPrompt` and
  `PlayScreen.Component.HandleTwist`.
- GameFlow.TwistPrompt: requires `0 <= random < 1`, which is the range `Math.random()` returns.
- GameFlow.Next: requires `CanAdvance`, meaning the word index it reads is in range.
  `NextReachable` proves that this holds in every reachable state. Outside the reachable states
  the source would read `undefined`.
- `goToReflection` only writes to the console. The console logging in the voice handler is left
  out too.
- Analytics, the speech recogniser itself, and the transcript are left out. The recogniser's
  events are the methods `OnRecognitionStart`, `OnRecognitionEnd` and `OnRecognitionResult`.
- Strings are sequences of Unicode scalar values, not UTF-16 code units.
- A table lookup sees only the table's own keys. Keys inherited from `Object.prototype` (such as
  `constructor`) are not modelled.
- EcmaString.ReplaceFirst: models only a string pattern with a string replacement, the one form
  the source uses.
- Translations.GetTranslation: the replacements are a sequence in `Object.keys` order. Object
  property order, which puts integer-like keys first, is not modelled.
- DrawingCanvas.Coordinates: the scaling from client to canvas coordinates is not modelled;
  points are given in canvas coordinates.
- DrawingCanvas.Coordinates: a touch event with no contacts yields `None`. In the source,
  reading its first contact throws.
- DrawingCanvas.Canvas.Stroke: rasterisation is not modelled. The set `covered` stands for the
  pixels the stroked path covers.
- DrawingCanvas.Canvas.Stroke: anti-aliasing, alpha blending and colour parsing are not modelled.
  A pixel is background, transparent, or one CSS colour, and an invalid colour string is not
  rejected.
- DrawingCanvas.Component.Mount: window listener registration and removal on unmount are
  modelled only as the `WindowResize` method.
- The `canvasRef` null checks of the drawing component are left out. After mounting, the ref
  always holds the component's canvas.
- `PlayScreen.Component` models only `setCurrentColor` from the controls. The controls component
  declares no brush-size, tool or undo props, so the brush size stays 8, the tool stays brush, and
  `handleUndo` is never wired to a button (src/components/KidsControls.tsx:5-10). `HandleUndo` is
  still modelled.
- The survey screen, the question widgets and the answer collection are not modelled. `Survey`
  covers only the constant data and the answer type.
- The agreement of the survey's translation keys with the translation tables is not proved.
- DrawingCanvas.WithLineWidth: a JavaScript number is an `int` here, so a fractional brush size or
  line width is not modelled.
- Survey.Answer.Count: the slider's answer is an `int`, so a fractional value is not modelled.
