# Nanobanana Webtoon Master — a Dafny model of its core

The application turns a subject into a four-panel webtoon plan, lets the user
edit the plan, rebuilds an English image prompt from the edited plan, and asks
an image model for a preview. This project models the deterministic parts of
that flow and proves what they promise:

- **`Composer`** (`rebuildPrompt` in services/geminiService.ts):
  - the request text built from a plan, as the template lays it out. Every
    fixed text lies in one record of template texts, and the layout lemmas
    hold for any such record;
  - where each plan field lands in the request, and in which order;
  - the trim-or-keep rule applied to the model's answer.
- **`Gemini`** (the rest of services/geminiService.ts):
  - the preview-image request: prompt, 9:16 aspect ratio, 2K size;
  - the extraction of the first inline image as a PNG data URI;
  - the ordered classifier that turns an error message into the message
    rethrown;
  - `verifyApiKey`, which collapses every failure to `false`.
- **`Session`** (App.tsx): the screen state as an immutable record, and its
  handlers.
  - Each asynchronous handler is split at its `await`. `Start…` runs the
    synchronous part and returns either `Done(state)` or `Await(state,
    request)`. `Finish…` applies the remote call's outcome to the state
    current at that moment.
  - The key kept in the browser's local storage is the field `storedKey`.
- **`Text`**: the JavaScript string operations the template relies on:
  - `includes` (`Contains`), `join`, `trim` with ECMAScript white space, and
    `replace(/\n/g, ' ')`;
  - the decimal printing of panel numbers;
  - position lemmas used to locate pieces of a concatenation.
- **`Webtoon`** (types.ts): the plan record and the four art styles.
- **`Wrappers`**: `Option` and `Result`.

The remote models never run here. Each call is a parameter:
- `Composer.RebuildPrompt` and `Gemini.GenerateImage` take the model as a
  function from request to reply;
- the `Finish…` handlers take the call's outcome.

A `dialogues` entry missing for a story step prints as `undefined`, as a
JavaScript template literal does. The request is defined for every plan,
whatever the lengths of its arrays.

## Model

| member | source | states |
|---|---|---|
| Text.FlattenNewlines | services/geminiService.ts:93 | the info text with `\n` replaced: same length, every line feed becomes a space, every other character is kept |
| Text.FlattenNewlinesFacts | services/geminiService.ts:93 | the rewritten text holds no line feed, and it equals the original exactly when the original had none |
| Text.Trim | services/geminiService.ts:117 | `trim()` removes the leading and trailing ECMAScript white space and nothing else; the result is a slice of the input; a non-empty result starts and ends with a non-space |
| Text.TrimEmptyIff | services/geminiService.ts:117 | the trimmed text is empty exactly when the text is all white space |
| Text.TrimIdempotent | services/geminiService.ts:117 | trimming twice is trimming once |
| Text.AtContains | services/geminiService.ts:147-150 | `includes` holds whenever the text occurs at some index |
| Text.JoinAt | services/geminiService.ts:89 | in `lines.join(sep)`, line `i` starts at its offset |
| Text.JoinSepAt | services/geminiService.ts:89 | in `lines.join(sep)`, the separator follows every line but the last |
| Text.JoinOffsetNext | services/geminiService.ts:89 | in `lines.join(sep)`, the next line starts one separator after the end of the current one |
| Text.JoinLength | services/geminiService.ts:89 | `lines.join(sep)` of a non-empty list ends where its last line ends |
| Text.JoinEmbedded | services/geminiService.ts:89 | where a joined text occurs inside a larger one, each line occurs at the join's position plus its offset, followed by the separator and the next line |
| Text.DecimalRoundTrip | services/geminiService.ts:89 | the printed panel number reads back as the number |
| Composer.DialogueText | services/geminiService.ts:89 | the dialogue at index `i`, or `undefined` past the end of `dialogues` |
| Composer.ComposeFrame | services/geminiService.ts:83-107 | the request (`BuildRequest` is this with the real texts) starts with the preamble, ends with the closing instructions, and the character section starts right after the preamble |
| Composer.PanelBlockAt | services/geminiService.ts:88-89 | the joined panel lines follow the "2. 4-Panel Story" heading |
| Composer.PanelLineInRequest | services/geminiService.ts:89 | story step `i` gives the line `Panel {i+1}: Action: {step} \| Text in speech bubble: "{dialogue}"` at a known offset; consecutive lines are separated by exactly one line feed |
| Composer.LastPanelLineEnds | services/geminiService.ts:88-91 | the panel block ends with the last story step's line, and the info section starts right there |
| Composer.DialogueInRequest | services/geminiService.ts:89 | when step `i` has a dialogue, its full panel line and the dialogue between double quotes occur in the request, verbatim |
| Composer.CharacterLaid | services/geminiService.ts:87 | the name and the appearance each occur at their own position, and the request holds the character label, the name, and the appearance in parentheses |
| Composer.InfoLaid | services/geminiService.ts:91-93 | the info title and the rewritten info text each occur at their own position, the content between the content label and a quote |
| Composer.OutroLaid | services/geminiService.ts:96-98 | the outro's second character, action and dialogue each occur at their own position; the first two follow their labels, and the dialogue stands verbatim between the dialogue label and a quote |
| Composer.StyleLaid | services/geminiService.ts:100 | the style's label and the main colour each occur at their own position, the label followed by the main colour |
| Composer.FrontInOrder | services/geminiService.ts:87-93 | the positions of name, appearance, the panel block, the info title and the info content are in that order, each value ending before the next starts |
| Composer.BackInOrder | services/geminiService.ts:93-100 | the positions of info content, second character, action, outro dialogue, style label and main colour are in that order, each value ending before the next starts |
| Composer.SectionsInOrder | services/geminiService.ts:87-100 | each of the ten values, from the character's name to the main colour, occurs in the request at its position, and each ends before the next one starts |
| Composer.LinesInRequest | services/geminiService.ts:83-107 | with the real template texts, the request contains these lines: `1. Character: name (appearance)`, `Title: "TIPS & INFO"`, `Content: "…"` with line feeds flattened, `Second Character: …`, `Action: …`, `Dialogue: "…"`, and `Style: label, Main Color: colour` |
| Composer.RecomposedPrompt | services/geminiService.ts:117 | the answer trimmed if it is not all white space; otherwise, or when there is no text, the previous prompt; never empty when the previous prompt is not |
| Composer.RebuildPrompt | services/geminiService.ts:81-118 | `BuildRequest(plan)` is sent; a failure propagates as an error; an answer gives the recomposed prompt, never empty while the plan's prompt is not |
| Gemini.FirstCandidateParts | services/geminiService.ts:137 | the parts of the first candidate, or none when there is no candidate |
| Gemini.DataText | services/geminiService.ts:139 | the inline data as the template literal prints it: the string, or `undefined` when missing |
| Gemini.ImageRequestFor | services/geminiService.ts:124-135 | the image request carries the prompt as its only part, aspect ratio "9:16" and size "2K" |
| Gemini.FirstInline | services/geminiService.ts:137-141 | the index of the first part with inline data: every earlier part has none, and there is none exactly when no part has inline data |
| Gemini.FirstInlineIs | services/geminiService.ts:137-141 | a part with inline data preceded only by parts without it is the one found |
| Gemini.ImageUri | services/geminiService.ts:137-142 | an image is found exactly when some part of the first candidate has inline data, and none when there is no candidate; it is `data:image/png;base64,` followed by the first such part's data |
| Gemini.ScanParts | services/geminiService.ts:137-142 | the source's loop, returning at the first part with inline data, agrees with `ImageUri`, and its result starts with the data-URI prefix |
| Gemini.ClassifyImageError | services/geminiService.ts:145-152 | a missing or empty message gives "Image generation failed."; otherwise the first key the message contains, checked in the order "403", "404", "429", "SAFETY", picks its explanation; an unmatched message passes through |
| Gemini.FirstKeyExplanation | services/geminiService.ts:147-150 | the explanation of the first key of a list the message contains: none exactly when it contains no key; otherwise that key's, with every earlier key absent |
| Gemini.ClassifyByKeys | services/geminiService.ts:145-152 | for a non-empty message, the classifier is the table lookup in the order "403", "404", "429", "SAFETY", the message itself when no key is found |
| Gemini.AccessDeniedFirst | services/geminiService.ts:147-150 | every message containing "403" is classified as access denied, whatever other keys it contains and wherever they stand, as "429 then 403" shows |
| Gemini.ExplanationsHaveNoKey | services/geminiService.ts:145-150 | none of the fixed explanations contains "403", "404", "429" or "SAFETY" |
| Gemini.ClassifyStable | services/geminiService.ts:143-153 | the rethrown message is never empty; it is a fixed explanation or the original message; classifying it again changes nothing |
| Gemini.GenerateImage | services/geminiService.ts:120-155 | a thrown error becomes an error carrying the classified, non-empty message; a response gives its first inline image, or none |
| Gemini.VerifyApiKey | services/geminiService.ts:10-24 | the key is valid exactly when the one-token "hi" probe is answered; any error gives `false` and none escapes |
| Session.HasSavedKey | App.tsx:90-91 | a key counts as saved only when the storage entry is present; in a valid state, exactly when it is |
| Session.Mount | App.tsx:59-66 | a non-empty saved key is loaded into the key field and marked verified; otherwise the field stays empty and idle |
| Session.MountLaws | App.tsx:59-66 | the mounted state is valid exactly when the entry is not the empty string; a key counts as saved exactly when shown verified; opening settings right away keeps the status; a shown key is the stored one |
| Session.ApplyPatch | App.tsx:159 | every field the patch names takes the patch's value, every other field keeps the plan's |
| Session.ApplyPatchLaws | App.tsx:156-161 | an empty patch changes nothing; applying a patch twice is applying it once |
| Session.UpdatePlan | App.tsx:156-161 | the plan, if any, gets the patched fields; without a plan nothing changes; no other state field changes |
| Session.UpdateStoryStep | App.tsx:163-168 | step `i` becomes `v`; the number of steps, the other steps, the dialogues and every other field are kept; no-op without a plan |
| Session.UpdateDialogueStep | App.tsx:170-175 | dialogue `i` becomes `v`, appended when `i` is one past the end; the other dialogues, the story and every other field are kept; no-op without a plan |
| Session.StartCreatePlan | App.tsx:89-108 | a request is sent exactly when a non-empty key is saved and the subject is not all white space. Without a key, settings open with an error. With a blank subject, an error is set. In both cases the plan is kept. When sent, the request carries the untrimmed subject, the style and the saved key, and planning starts with plan, error, image and image error cleared |
| Session.FinishCreatePlan | App.tsx:110-120 | planning ends; success stores the plan; failure sets the error and leaves the plan; nothing else changes |
| Session.CreatePlanFails | App.tsx:89-120 | a failed plan request leaves no plan and no image, with the failure message |
| Session.StartRebuildPrompt | App.tsx:123-126 | a request is sent exactly when there is a plan and a saved key; it carries the current plan and marks the update |
| Session.FinishRebuildPrompt | App.tsx:127-135 | the update mark is cleared; success replaces only the prompt of the current plan, if any; failure keeps the plan and sets the error; nothing else changes |
| Session.RebuildKeepsPlan | App.tsx:123-136 | a full rebuild changes only the plan's prompt and the error; a non-empty prompt stays non-empty |
| Session.StartGenerateImage | App.tsx:138-145 | a request is sent exactly when the plan has a non-empty prompt and a key is saved; it carries that prompt, and image and image error are cleared |
| Session.FinishGenerateImage | App.tsx:146-153 | generation ends; success shows the image, possibly none; failure sets a non-empty image error, the error's message when non-empty |
| Session.GenerateImageOutcome | App.tsx:138-154 | with the image service in the loop, a thrown error shows the classified message and no image; a response shows its first inline image |
| Session.StartVerifyAndSave | App.tsx:68-71 | an empty key field does nothing; otherwise the field's key is probed and the status is loading |
| Session.FinishVerifyAndSave | App.tsx:71-78 | a valid key is stored, namely the one probed, and marked successful; an invalid one marks the error and leaves storage untouched |
| Session.ResetKey | App.tsx:81-87 | on confirmation the key field is emptied, the stored key removed and the status idle; otherwise nothing changes |
| Session.EditKey | App.tsx:255-258 | the field takes the typed text and the status becomes idle; nothing else changes |
| Session.OpenSettings | App.tsx:218-221 | the dialog opens; the status is success exactly when the key field is non-empty, idle otherwise |
| Session.KeyHandlersKeepValid | App.tsx:68-87 | the key handlers never store an empty key |
| Session.VerifyAndSaveOutcome | App.tsx:68-79 | with the probe in the loop, the field's key is stored and marked verified exactly when the probe sent with it is accepted; on rejection the stored key is kept and the status is error; a stored key is what the next mount loads, verified |

## Left out

- `createWebtoonPlan` (services/geminiService.ts:26-79) is a remote call with a JSON schema, followed by an unchecked `JSON.parse` cast. Only its outcome enters the model, as the argument of `Session.FinishCreatePlan`. The code does not check that the story has four entries, and no such invariant is stated.
- The system instructions (constants.tsx and services/geminiService.ts:113) are left out. They are natural-language requests to the remote model, for example never translating quoted text. Only the client-side template is modelled.
- `STYLE_CONFIGS`, the rendered screen, the help and image dialogs, clipboard copy, image download and console logging are presentation or browser I/O.
- The Gemini SDK, `getAIClient` and the network are left out. Model names and request settings appear only as request fields.
- `Gemini.GenerateImage`: does not model an error thrown while constructing the client (outside the `try`), because that happens in the SDK.
- `Gemini.ImageUri`: a candidate without `content`, or content without `parts`, is modelled as a candidate with no parts. Inline `data` is either a string or missing, where missing prints as `undefined`. Other JavaScript values are not modelled.
- `Gemini.ClassifyImageError`: a thrown value whose `message` is not a string is folded into a missing message.
- `Session.UpdateDialogueStep`: requires the index to be at most the number of dialogues. A larger index leaves holes in a JavaScript array, which a sequence of strings cannot represent.
- `Session.UpdateStoryStep`: requires an existing step index. The screen only passes indices of `storySummary`.
- Webtoon.Plan: every field is present with its declared type, and `artStyle` is one of the four styles. The code casts the reply with `JSON.parse(response.text || '{}') as WebtoonPlan` (services/geminiService.ts:78), and App.tsx:112 stores it as it is, so a plan may lack fields or carry any string as its style. On a plan without `recommendedCharacter` (the `{}` of an empty reply, say) `rebuildPrompt` throws a TypeError at services/geminiService.ts:87 before any request is sent; a missing `storySummary`, `infoTextBlock` or `outroDetails` throws likewise at lines 89, 93 and 96. `Composer.RebuildPrompt` fails only through the remote call.
- Webtoon.Plan: strings are sequences of Unicode scalar values, not of UTF-16 code units. Lengths and offsets count code points, and lone surrogates are not represented.
- Concurrency is not modelled. Handlers may interleave between `Start…` and `Finish…`; each `Finish…` acts on the state it is given. The code has no guard against a stale reply overwriting a newer one, and neither does the model.
- Setting the subject, the style and the dialog flags are plain field assignments; they have no separate functions.
- The code has a single image backend. It does not attach a backend name to failures, does not check story or dialogue counts, and has no request tokens.
