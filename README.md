# Veo 3 prompt crafter — a verified model of its prompt logic

The application is a single-page form for writing prompts for a video
generator. The user fills in thirteen fields, all in Indonesian:
- subject, action, expression;
- place, time;
- camera movement, lighting, video style, mood;
- music, spoken line, extra details;
- a negative prompt.

"Craft" assembles these into one Indonesian paragraph, shows it in an
editable box and sends it to a language model for English translation. A
spoken line is wrapped in `{{…}}`, and the translation instruction asks for
that span to be left untranslated.

This project models three pieces of that program in Dafny:

- **The prompt assembler** (`generateDetailedIndonesianPrompt`, `App.tsx`):
  - `js_strings.dfy` holds the JavaScript string operations it uses: `trim`, `replace(/_/g, ' ')`, `join`, and a substring relation used to state results.
  - `types.dfy` holds the 13-field `PromptState` record.
  - `assembler.dfy` holds the specification `Parts`/`Assemble` and the imperative method `GenerateDetailedIndonesianPrompt`. The method grows a parts list with pushes and the scene-core sentence with appends, section by section as the source does, and is proved to compute `Assemble`.
  - `prompt_properties.dfy` proves what the assembled prompt looks like: every clause, its wording, its order, the setting-clause quirks, the visual-style join, where the quality sentence sits, and that only the trimmed value of each field matters.
- **The session state machine** (`session.dfy`, module `AppState`):
  - The component's state is the class `Session`. Its fields are the form inputs, the two prompts, the copied flags, the busy flag and the error. `hasKey` stands for the presence of the API key.
  - Its handlers are methods: field edit, prompt edit, craft, retranslate, and the two halves of `translateToEnglish` on either side of the remote call.
  - The remote translation is a parameter: `Success(text)` or `Failure`.
  - Every method is proved against a pure transition function on the abstract value `View`, and keeps the invariant `Consistent`.
  - Lemmas then relate the transitions. A craft's outcome depends on the inputs alone. A retranslation right after a craft resends the same prompt. The dialogue span reaches the provider's request verbatim.
- **The select widget's option rule** (`select_input.dfy`, `components/SelectInput.tsx`):
  - which values count as `{ value, label }` option objects;
  - which stored value, key and text each option renders, with a placeholder storing `""`;
  - that anything else throws while rendering.

The setting clause does not render the way it reads; the model follows the code:
- A time is rendered even when no place is given, as the part `"pada <time>."`.
- A place without a time gives a separate `"."` part. The prompt therefore reads `"Berlatar di <place> ."`, with a space before the period.

Both behaviours are stated and proved (`PlaceWithoutTime`, `TimeWithoutPlace`).

## Model

| member | source | states |
|---|---|---|
| `JsStrings.TrimShape` | App.tsx:48 | `trim` yields a string no longer than its input whose first and last characters are not whitespace |
| `JsStrings.TrimEmptyIffWhitespace` | App.tsx:48 | the truthiness test `v.trim()` fails exactly when every character of `v` is whitespace |
| `JsStrings.TrimIdempotent` | App.tsx:48 | trimming an already trimmed value changes nothing |
| `JsStrings.ReplaceUnderscores` | App.tsx:66 | `replace(/_/g, ' ')` keeps the length, turns each `_` into a space and keeps every other character in place |
| `JsStrings.ReplaceUnderscoresRemovesAll` | App.tsx:66 | no underscore survives the replacement |
| `JsStrings.JoinContainsNeighbours` | App.tsx:89 | in `parts.join(sep)` any two neighbouring parts appear with exactly one separator between them |
| `Types.PromptState.With` | App.tsx:31 | `{ ...prev, [field]: value }`: the named field holds the new value and every other field keeps its value |
| `Types.WithOverwrites` | App.tsx:30-32 | a second edit of the same field overrides the first, and writing back a field's own value changes nothing |
| `Assembler.DropBlankSpec` | App.tsx:89 | `parts.filter(part => part.trim() !== "")` keeps a part exactly when it is a non-blank part of the input, and returns a list without blank parts unchanged |
| `Assembler.DropBlankAppend` | App.tsx:89 | filtering a concatenation is the concatenation of the filtered halves, so kept parts stay in input order |
| `Assembler.PushIfPresent` | App.tsx:58 | `if (v.trim()) parts.push(part)` appends `part` exactly when `v` is not blank |
| `Assembler.ComposeSceneCore` | App.tsx:47-54 | the scene-core string grown by `+=` is, once closed by a period, the scene-core sentence of the specification |
| `Assembler.CollectVisualStyleParts` | App.tsx:63-67 | the visual-style fragments are pushed for exactly the non-blank style, lighting, camera and mood values, in that order |
| `Assembler.GenerateDetailedIndonesianPrompt` | App.tsx:38-90 | the push-by-push assembly returns exactly `Assemble(inputs)`: the specified parts, blank ones filtered out, joined by one space |
| `PromptProperties.PartsSolid` | App.tsx:44-87 | every part the assembler pushes starts with a non-whitespace character |
| `PromptProperties.AssembleJoinsAllParts` | App.tsx:89 | the blank filter removes nothing, so the prompt is all pushed parts joined by a single space |
| `PromptProperties.AssembleContainsPart` | App.tsx:89 | every pushed part occurs in the prompt |
| `PromptProperties.PartsOpening` | App.tsx:44-60 | the parts list begins with the scene core followed by the setting parts |
| `PromptProperties.SceneCoreOpening` | App.tsx:47-55 | the scene core starts with "Visualisasikan sebuah adegan"; with a blank subject it is exactly the generic "… yang menakjubkan dan penuh detail." sentence; otherwise it continues with " yang menampilkan " and the trimmed subject |
| `PromptProperties.SceneCoreClauses` | App.tsx:48-55 | with a subject, the scene core is subject, then " sedang " + action if given, then " dengan ekspresi " + expression if given, then one period |
| `PromptProperties.AssembleOpensWithScene` | App.tsx:47-89 | the prompt starts with the scene core and the fixed introduction, and is never blank |
| `PromptProperties.SubjectBlankIgnoresActionAndExpression` | App.tsx:48-54 | with a blank subject, changing the action or the expression does not change the prompt |
| `PromptProperties.AssembleDependsOnTrimmedFields` | App.tsx:48-86 | two records whose fields agree after trimming give the same prompt |
| `PromptProperties.SameTrimSamePrompt` | App.tsx:48-86 | replacing one field by any value with the same trim leaves the prompt unchanged |
| `PromptProperties.BlankAndPaddingIgnored` | App.tsx:48-86 | a blank field acts as an empty one, and replacing a field by its trimmed value changes nothing |
| `PromptProperties.PlaceWithoutTime` | App.tsx:58-60 | a place with no time gives the parts "Berlatar di <place>" and "." so the prompt contains "Berlatar di <place> ." |
| `PromptProperties.PlaceAndTime` | App.tsx:58-59 | place and time give "Berlatar di <place>" and "pada <time>." so the prompt contains "Berlatar di <place> pada <time>." |
| `PromptProperties.TimeWithoutPlace` | App.tsx:59 | a time with no place is still rendered, as the part "pada <time>." right after the scene core |
| `PromptProperties.VisualSentencePresence` | App.tsx:69-71 | there is at most one visual-style sentence, and there is one exactly when style, lighting, camera or mood is non-blank |
| `PromptProperties.VisualSentenceAllFour` | App.tsx:63-71 | with all four given, the sentence is the style, lighting, camera and mood fragments joined by ", " and closed by one "." |
| `PromptProperties.VisualFragmentRendered` | App.tsx:63-70 | every pushed visual-style fragment occurs in the prompt |
| `PromptProperties.CameraMovementRendered` | App.tsx:66 | a given camera movement appears as "menggunakan gerakan kamera " + its trimmed value with underscores turned into spaces, same length, no underscore left |
| `PromptProperties.StyleLightingMoodRendered` | App.tsx:64-67 | a given style, lighting or mood appears after its fixed lead-in with its trimmed value |
| `PromptProperties.ClauseSentencesRendered` | App.tsx:74-81 | given music, dialogue or details appear as "Diiringi oleh v.", "Terdapat dialog: {{v}}." and "Detail tambahan: v." with the trimmed value |
| `PromptProperties.DialogueKeptInBraces` | App.tsx:75-78 | the trimmed dialogue appears unmodified between "{{" and "}}" |
| `PromptProperties.PartsClosing` | App.tsx:83-87 | the quality sentence is always pushed; it is the last part when the negative prompt is blank, otherwise it is followed by exactly the "Hindari elemen seperti: v." part |
| `PromptProperties.AssembleClosing` | App.tsx:83-89 | the prompt always contains the quality sentence and ends with it, or ends with the avoid-list sentence that directly follows it |
| `PromptProperties.AssembleAllBlank` | App.tsx:44-89 | with every field blank the prompt is the generic scene sentence, one space, and the quality sentence |
| `AppState.TranslationRequest` | App.tsx:107 | the request is the fixed instruction followed by the text, unchanged and untrimmed |
| `AppState.TranslationOutcome` | App.tsx:92-123 | without a key the "unavailable" error and text are shown; with a blank text only the English text is cleared, so an earlier error stays; otherwise the busy flag ends false and either the reply is shown with no error or the failure error and text are; inputs, Indonesian prompt and copied flags are untouched |
| `AppState.TranslationForgetsPrevious` | App.tsx:103-122 | a translation that reaches the provider does not depend on the English text, error or busy flag it started from |
| `AppState.CraftOutcome` | App.tsx:125-131 | a craft stores the assembled prompt, clears both copied flags, and with a key always sends that same prompt; the outcome is the reply, or the failure message |
| `AppState.CraftDependsOnInputsOnly` | App.tsx:125-131 | what a craft shows depends on the form inputs alone, not on earlier crafts, edits or translations |
| `AppState.RetranslateAfterCraft` | App.tsx:133-135 | retranslating right after a craft resends the stored prompt without re-assembling: the result is the craft with the new reply |
| `AppState.PaddingEditKeepsCraft` | App.tsx:30-32 | editing a field only by surrounding whitespace does not change what the next craft produces |
| `AppState.DialogueReachesProvider` | App.tsx:107 | the trimmed dialogue, inside its double braces, is part of the request sent for translation |
| `AppState.Session.constructor` | App.tsx:22-28 | the initial state: the given inputs, empty prompts, flags cleared, no error |
| `AppState.Session.InputChange` | App.tsx:30-32 | exactly the named field takes the new value; nothing else in the session changes |
| `AppState.Session.IndonesianPromptChange` | App.tsx:34-36 | the edited text becomes the Indonesian prompt; nothing else changes |
| `AppState.Session.StartTranslation` | App.tsx:92-107 | the branches before the call: the no-key error, the blank-text clear, or busy with the error and English text cleared and the request returned |
| `AppState.Session.CompleteTranslation` | App.tsx:109-122 | after the call: the reply is shown, or the failure error and text; the busy flag is cleared either way |
| `AppState.Session.TranslateToEnglish` | App.tsx:92-123 | the whole translation, keeping the session consistent |
| `AppState.Session.ShowFreshPrompt` | App.tsx:127-129 | the new prompt is stored and both copied flags are cleared |
| `AppState.Session.CraftPrompt` | App.tsx:125-131 | assemble with the imperative assembler, store, clear the copied flags, translate the same string |
| `AppState.Session.Retranslate` | App.tsx:133-135 | translates the Indonesian prompt as it currently stands |
| `SelectInput.StoredValue` | components/SelectInput.tsx:39 | `"None"` and any option starting with `"Pilih"` store `""`; any other string option stores itself |
| `SelectInput.RenderOption` | components/SelectInput.tsx:29-43 | an option renders exactly when it is a string or an option object (non-null, with both `value` and `label`); an object renders key and value `option.value` and text `option.label`; a string keeps itself as key and text; anything else throws |
| `SelectInput.RenderOptions` | components/SelectInput.tsx:29-43 | `options.map` gives one rendered option per input option, in input order, or fails exactly when some option fails |
| `SelectInput.StoredValueBlank` | components/SelectInput.tsx:39 | a chosen option stores a blank value, which the assembler drops, exactly when it is a placeholder or itself blank |
| `SelectInput.ObjectValueIgnoresLabel` | components/SelectInput.tsx:30-35 | an option object's stored value is its `value`, whatever its label |

## Left out

- The call to the translation provider (`App.tsx:109-114`) is a network call to a foreign library. It is modelled only by its outcome, `Success(text)` or `Failure`, passed in as a parameter.
- Whether the provider keeps `{{…}}` spans untranslated depends on the model obeying the instruction. The proofs go only as far as the span reaching the request.
- The model does not cover concurrency.
  - `TranslateToEnglish` runs the part before the await and the part after it back to back.
  - `StartTranslation` and `CompleteTranslation` are also exposed separately, so a caller can interleave handlers between them. React's batching of state updates and the stale closures of `useCallback` are not modelled.
  - The retranslate button's `disabled` attribute (`App.tsx:244`) is a rendering detail, not a precondition of the handler, and is left out.
- `handleCopyToClipboard` (`App.tsx:137-152`) is left out: it is clipboard I/O and 2-second timers. As a result the model never sets a copied flag to true.
- JSX rendering, CSS, `console` logging, the `inputElements` table, the select's `onChange` binding and the page footer are left out.
- The option lists and the default inputs live in `constants.ts`, which is not part of this model. The initial inputs are a constructor parameter.
- `components/TextInput.tsx` and `components/TextAreaInput.tsx` are pass-through widgets with no logic and are left out.
- `JsStrings.IsWhitespace` writes out ECMAScript's whitespace and line-terminator set. No proof depends on which characters are in it, beyond the fixed sentence openings not starting with whitespace.
- Strings are modelled as sequences of Unicode scalar values, not UTF-16 code units. Surrogate pairs are not modelled.
- The select model gives an option object only string-valued own properties.
  - `in` finding properties through the prototype chain is not modelled.
  - An object that supplies its own `startsWith` method would not throw; that case is not modelled either.
- `AppState.Session.CompleteTranslation` requires a key. The code after the await only runs once a request has been sent, and a request is only sent with a key.
