# Monolith request core in Dafny

Monolith is a small Flask service (`app.py`) behind a "structural English
visualizer". It has two JSON endpoints, and this project models both:

- `POST /api/parse` takes a sentence and an optional level. The handler:
  - sanitises the sentence;
  - picks one of three translation levels;
  - decides whether the input needs translating first, by counting the
    characters of Unicode category Lo;
  - builds a prompt from a fixed template and sends it, followed by the
    sentence, to an external language model;
  - strips Markdown code fences from the reply, parses it as JSON and
    normalises it to an object with a `sentences` key.

  An empty or unusable sentence gets a 400 reply. A model failure or invalid
  JSON gets a 500 reply.
- `POST /api/chat` takes a message, an optional parse context and a history.
  The handler:
  - rejects an empty message with 400;
  - builds a system instruction from a fixed tutor preamble and the context;
  - keeps the last ten history turns, each labelled `user` or `model`, and
    appends the message as a final `user` turn;
  - answers `{"reply": <stripped model text>}`, or 500 with the exception
    text.

The model is written on values, because the handlers are pure request-to-response code. The one
`for` statement in the source, the loop that builds the chat turns, is the
method `Chat.AssembleTurns`. Its loop invariant proves it equal to the
specification function `Chat.Conversation`. The generator sum that counts the
Lo characters (app.py:114) is the recursive function `Sanitizer.CountLo`.

Modules:

- `Wrappers` holds `Option` and `Result`.
- `JsonValue` and `Http` hold JSON values, responses, the model's two
  possible outcomes, and the `{"error": ...}` reply.
- `Text` holds Python's `str.isspace` and `strip`/`lstrip`/`rstrip`, and
  substring search.
- `Sanitizer` holds the two sanitising steps and the Lo-count threshold.
- `Format` models `str.format` over a template already read into literal runs
  and named fields.
- `Prompt` holds the level table, the translation blocks and `build_prompt`.
- `Normalizer` holds the two fence regexes and the normalisation of the
  parsed JSON.
- `ParseEndpoint` and `Chat` hold the two handlers.

Outside code enters as parameters:

- `isLo: char -> bool` stands for `unicodedata.category(c).startswith('Lo')`.
- `loads: string -> Option<Json>` stands for `json.loads`. `None` means that
  it raised `JSONDecodeError`.
- The model call is a function returning `Upstream`. `Replied(text)` is the
  reply's text and `Raised(message)` is `str(e)` of any other exception.

The regular expressions are written out as their meaning. `\s` is the class
of `str.isspace`. `^```json\s*` removes the tag and the whitespace after it.
`\s*```\s*$` is specified by leftmost-match semantics:

- the result is a prefix of the input;
- what it removes is a fence with whitespace around it;
- no earlier position starts such a run.

Some behaviour of the code that the model keeps:

- Each disallowed character is replaced by one space (app.py:104).
- The translate test is strict. Ten characters with one Lo character among
  them give `1 > 10 * 0.1`, which is false (app.py:115).
  `Sanitizer.ThresholdIsStrict` states this.
- The request's `translate` field is never read (app.py:108-117).
- Only a `json`-tagged opening fence is removed (app.py:126). An untagged
  opening ```` ``` ```` stays, which `Normalizer.UntaggedFenceKept` states.

## Model

| member | source | states |
|---|---|---|
| Http.ErrorResponse | app.py:101 | the error reply has the given status and a body whose only key is `error`, holding the message |
| JsonValue.HasKey | app.py:131 | `isinstance(parsed, dict) and "sentences" in parsed`; a predicate with no contract of its own, whose use Normalizer.Normalize states |
| Text.IsSpace | app.py:99 | the whitespace class of `str.isspace()` and of `\s` in a `str` pattern: U+0009-U+000D, U+001C-U+0020, U+0085, U+00A0, U+1680, U+2000-U+200A, U+2028, U+2029, U+202F, U+205F, U+3000; a predicate with no contract of its own, used by every trimming contract |
| Text.TrimStart | app.py:99 | the leading half of `strip()`, also the `\s*` after the tag at app.py:126: the result is a suffix, everything removed is whitespace, and the result is empty or starts with non-whitespace, which fixes it uniquely |
| Text.TrimEnd | app.py:99 | the trailing half of `strip()`, also the trimming in the fence test at app.py:127: the result is a prefix, everything removed is whitespace, and the result is empty or ends with non-whitespace, which fixes it uniquely |
| Text.Strip | app.py:99 | `strip()` leaves a string with no whitespace at either end |
| Text.StripSplit | app.py:99 | `strip()` removes only whitespace: the input is the result with a whitespace run before and after |
| Text.StripEmptyIff | app.py:99-100 | a string strips to empty exactly when it consists of whitespace |
| Text.StripIdempotent | app.py:104 | stripping a stripped string changes nothing |
| Text.StripPadded | app.py:124 | whitespace added on both sides of a text is removed again by `strip()` |
| Text.TrimStartAppend | app.py:99 | `lstrip()` does not look past the first non-whitespace character |
| Sanitizer.Allowed | app.py:104 | the kept class `[\x20-\x7E\u00A0-\uFFFF]`; a predicate with no contract of its own, used by the sanitiser's contracts |
| Sanitizer.ReplaceDisallowed | app.py:104 | the replacement keeps the length; each allowed character is kept and each other character becomes a space |
| Sanitizer.Sanitize | app.py:99-106 | the sentence is rejected with "No sentence provided" exactly when it is all whitespace; the only other rejection is "No valid text after sanitization"; an accepted sentence is non-empty, trimmed and made only of allowed characters |
| Sanitizer.SanitizeOnePass | app.py:99-106 | the two strips and the replacement amount to one replacement and one strip; accepted exactly when that is non-empty |
| Sanitizer.SanitizeIdempotent | app.py:99-106 | sanitising an accepted sentence again gives the same sentence |
| Sanitizer.ControlOnlyRejected | app.py:99-106 | a sentence of disallowed characters, not all of them whitespace, passes the first check and fails the second |
| Sanitizer.StripKeepsAllowed | app.py:104 | stripping keeps every character allowed |
| Sanitizer.ReplaceAllAllowed | app.py:104 | after the replacement every character is allowed |
| Sanitizer.ReplaceIdempotent | app.py:104 | replacing twice is replacing once |
| Sanitizer.ReplaceAllowed | app.py:104 | a text of allowed characters is left unchanged |
| Sanitizer.ReplaceAppend | app.py:104 | the replacement works character by character over a concatenation |
| Sanitizer.ReplaceKeepsSpaces | app.py:104 | whitespace stays whitespace under the replacement |
| Sanitizer.CountLo | app.py:114 | the Lo count never exceeds the length |
| Sanitizer.NeedsTranslation | app.py:115 | `non_latin_count > len(sentence) * 0.1` on integers; a predicate with no contract of its own, whose behaviour NoLoNoTranslation, AllLoTranslation, ThresholdIsStrict and ThresholdPassed state |
| Sanitizer.CountLoBounds | app.py:114 | no Lo character gives 0; all Lo gives the length; one Lo character gives a positive count |
| Sanitizer.CountLoAppend | app.py:114 | the count of a concatenation is the sum of the counts |
| Sanitizer.NoLoNoTranslation | app.py:113-115 | a sentence without Lo characters is never translated |
| Sanitizer.AllLoTranslation | app.py:113-115 | a non-empty sentence of Lo characters only is always translated |
| Sanitizer.ThresholdIsStrict | app.py:115 | when U+732B is Lo and the sentence's other characters are not, one Lo character in ten characters does not reach the strict 10% threshold |
| Sanitizer.ThresholdPassed | app.py:115 | under the same condition on its characters, one Lo character in nine does |
| Sanitizer.SingleLo | app.py:114 | one Lo character between two Lo-free runs counts as one |
| Prompt.SelectLevel | app.py:108-110 | the level is always a key of the table; a requested key is kept; a missing or unknown level becomes `intermediate` |
| Prompt.LevelInstruction | app.py:80 | `LEVEL_INSTRUCTIONS.get(level, ...["intermediate"])`; no contract of its own; LevelBeginner, LevelAdvanced and LevelFallback give its value for every level |
| Prompt.LevelInstructions | app.py:14-36 | `LEVEL_INSTRUCTIONS`; a constant with no contract of its own; LevelKeys, LevelBeginner, LevelAdvanced and LevelFallback state its keys and blocks |
| Prompt.LevelKeys | app.py:14-36 | the table has exactly the keys `beginner`, `intermediate` and `advanced` |
| Prompt.LevelBeginner | app.py:15-21 | the beginner level gets the beginner block |
| Prompt.LevelAdvanced | app.py:29-35 | the advanced level gets the advanced block |
| Prompt.LevelFallback | app.py:80 | every other level, known or not, gets the intermediate block |
| Prompt.Args | app.py:82-86 | the three keyword arguments cover every field of the template, so `format` raises no KeyError |
| Prompt.PromptArgs | app.py:69-86 | the arguments built from a level and a translate flag fill every field |
| Prompt.TranslateInstruction | app.py:69-77 | the translate instruction of either branch of `if translate:`; no contract of its own; PromptTranslated and PromptInEnglish state which text each branch puts in the prompt |
| Prompt.SourceField | app.py:75-78 | the source-field line, empty without translation; no contract of its own; PromptTranslated and PromptInEnglish state it |
| Format.Fill | app.py:82-86 | `str.format` over the read template; no contract of its own; FillAppend and FillSeven give its text |
| Format.FillAppend | app.py:82-86 | formatting a template split in two gives the two halves' texts, one after the other |
| Format.FillSeven | app.py:82-86 | a template of seven pieces formats to its pieces' texts in order |
| Prompt.Template | app.py:38-66 | the shape of `PARSE_PROMPT_BASE` as `format` reads it: four literal runs around the fields `translate_instruction`, `level_instruction` and `source_field`; no contract of its own; FillTemplate gives its formatted text |
| Prompt.ParsePromptBase | app.py:38-66 | `PARSE_PROMPT_BASE`, read into literal runs with `{{` and `}}` as braces; a constant with no contract of its own; FillTemplate and PromptLayout give its formatted text |
| Prompt.FillTemplate | app.py:38-66 | the template formats to its four literal runs with the three arguments between them, in order |
| Prompt.BuildPrompt | app.py:68-86 | `build_prompt`; no contract of its own; PromptLayout gives its whole text, and PromptEmbedsLevel, PromptTranslated, PromptInEnglish and PromptIgnoresSentence state its properties |
| Prompt.PromptLayout | app.py:68-86 | the prompt is the opening text, the translate block, the level block, the rules and the source field, in that order |
| Prompt.FieldsOccur | app.py:82-86 | each of the three arguments appears in the formatted text |
| Prompt.PromptEmbedsLevel | app.py:80-86 | the prompt contains the level's block |
| Prompt.PromptTranslated | app.py:69-75 | with translation set the prompt asks for a translation and for the `source` field |
| Prompt.PromptInEnglish | app.py:76-78 | without it the prompt says the input is English and the source field is empty |
| Prompt.PromptIgnoresSentence | app.py:68-86 | the prompt does not depend on the sentence |
| Normalizer.FenceTrimmed | app.py:126-127 | the fence has no whitespace at its ends, and a backtick is not whitespace |
| Normalizer.FenceRun | app.py:127 | what `\s*```\s*` matches: whitespace, three backticks, whitespace; a predicate with no contract of its own, whose shape PaddedFence, FenceRunShape and FarApart state |
| Normalizer.PaddedFence | app.py:127 | a fence with whitespace on both sides is a match of the trailing pattern |
| Normalizer.FenceRunShape | app.py:127 | in a match of the trailing pattern every non-whitespace character lies inside the fence |
| Normalizer.FarApart | app.py:127 | no match has two non-whitespace characters three or more positions apart |
| Normalizer.StripLeadingFence | app.py:126 | the result is a suffix; with the tag in front, the tag and the whitespace after it are removed and the result starts with non-whitespace; without it nothing changes |
| Normalizer.FenceRunAt | app.py:127 | a fence with only whitespace around it, from a given index on, is a match |
| Normalizer.FencedTail | app.py:127 | when the trimmed text ends in a fence, the cut-off text is a prefix and the rest is a match |
| Normalizer.CutFence | app.py:127 | cutting a trailing fence and its whitespace leaves a prefix whose remainder is a match |
| Normalizer.FencedTailLeftmost | app.py:127 | no position before the cut starts a match |
| Normalizer.NoEarlierRun | app.py:127 | a non-whitespace character before the fence rules out a match at any earlier position |
| Normalizer.FenceRunEnd | app.py:127 | when any suffix matches, the trimmed text ends in a fence |
| Normalizer.UnfencedTail | app.py:127 | when the trimmed text does not end in a fence, no suffix matches |
| Normalizer.StripTrailingFence | app.py:127 | the result is a prefix; either nothing is removed or the removed part matches; no earlier position starts a match (leftmost match) |
| Normalizer.StripFences | app.py:126-127 | the two `re.sub` calls in order; no contract of its own; FenceRoundTrip, UnfencedUnchanged and UntaggedFenceKept give its result on fenced, unfenced and untagged replies |
| Normalizer.StripFencedReply | app.py:124 | a fenced reply with whitespace around it strips to the fenced text |
| Normalizer.LeadingFenceRemoved | app.py:126 | the tag and the following whitespace are removed from a tagged text |
| Normalizer.TrailingFenceRemoved | app.py:127 | a closing fence and the whitespace before it are removed |
| Normalizer.FenceRoundTrip | app.py:124-127 | a trimmed body wrapped in a `json` fence with any whitespace comes back exactly |
| Normalizer.UnfencedUnchanged | app.py:126-127 | a reply with neither fence passes unchanged |
| Normalizer.UntaggedFenceKept | app.py:126-127 | an untagged opening fence is kept; only the closing one is removed |
| Normalizer.Wrap | app.py:134-136 | `{"sentences": [{"text": sentence, "blocks": parsed}]}`; no contract of its own; Normalize, WrapRecoverable and NormalizeInjective state what it keeps |
| Normalizer.Normalize | app.py:130-136 | the body always has `sentences`; an object that has it is returned as it is; anything else is wrapped with the sentence |
| Normalizer.WrapRecoverable | app.py:133-136 | a wrapped value can be read back from the body, next to the sentence as `text` |
| Normalizer.NormalizeIdempotent | app.py:130-136 | normalising a normalised body changes nothing |
| Normalizer.NormalizeInjective | app.py:133-136 | different wrapped values give different bodies |
| ParseEndpoint.PrepareParse | app.py:98-122 | a 400 reply exactly when sanitising fails, with its message; otherwise the sentence, level and translate flag as chosen above, and the content is the prompt followed by the sentence |
| ParseEndpoint.CompleteParse | app.py:119-140 | a raised exception gives 500 with its text; invalid JSON gives 500 with the fixed message; otherwise 200 with the normalised body; every 200 has `sentences` |
| ParseEndpoint.HandleParse | app.py:96-140 | `parse()`; no contract of its own; ResponseShape, RejectedBeforeModel and FencedReply state its replies |
| ParseEndpoint.ResponseShape | app.py:96-140 | every reply is 200, 400 or 500; 200 carries `sentences`; 400 exactly when sanitising fails |
| ParseEndpoint.RejectedBeforeModel | app.py:99-106 | a rejected sentence gets the same 400 reply whatever the model and the parser do |
| ParseEndpoint.ContentSent | app.py:117-122 | the content sent ends with the sentence and contains the level block and the matching translation instruction |
| ParseEndpoint.ContentParts | app.py:122 | appending the sentence keeps whatever the prompt contains, and the content ends with the sentence |
| ParseEndpoint.ContainsPrefix | app.py:122 | text found in the prompt is still found once the sentence is appended |
| ParseEndpoint.FencedReply | app.py:124-138 | a fenced reply is parsed from the text inside the fence |
| Chat.RecentHistory | app.py:166 | at most the last ten entries are kept, as a suffix of the history |
| Chat.RoleOf | app.py:167 | the role is `user` exactly when the entry's role is the string `user`, and `model` otherwise |
| Chat.TurnOf | app.py:167-168 | the turn built from one history entry; no contract of its own; ToTurns and Conversation state the turns it builds |
| Chat.ToTurns | app.py:166-168 | one turn per entry, in order |
| Chat.Conversation | app.py:165-169 | the turns of the last ten entries in order, then the message as a `user` turn; every role is `user` or `model` |
| Chat.AssembleTurns | app.py:165-169 | the loop builds exactly the conversation |
| Chat.ContextText | app.py:163 | the context is never empty: a non-empty context is kept, otherwise the placeholder is used |
| Chat.SystemInstruction | app.py:152-163 | the system text is the tutor preamble followed by the context text |
| Chat.SystemContext | app.py:152-163 | a missing or empty context gives the preamble and `(no parse yet)`; any other context follows the preamble verbatim |
| Chat.SystemInjective | app.py:152-163 | different non-empty contexts give different system texts |
| Chat.CompleteChat | app.py:171-179 | an exception gives 500 with its text; a reply gives 200 with only `reply`, holding the stripped text |
| Chat.HandleChat | app.py:143-179 | an empty message gets 400 "No message" and the model is not consulted; otherwise the reply completes the model's answer to the system text and the conversation |

## Left out

- The Flask plumbing is not modelled: routing, `request.json`, `jsonify`, the two `render_template` pages (app.py:88-94) and `app.run` (app.py:182-183).
- The API key file and the client set-up (app.py:8-12) are I/O at import time.
- The generative model is a function parameter. Its name (`gemini-2.0-flash`) and the request encoding are not modelled.
- `json.loads` and `unicodedata.category` are function parameters, with no Dafny JSON parser and no Unicode database.
- `len(sentence) * 0.1` is floating point. It is modelled as the exact integer comparison `10 * count > length`. Rounding in the product is not modelled.
- Some non-string request values make the source raise a Python error outside any `try`, which gives Flask's generic 500. Those requests are not modelled:
  - a `sentence` or `message` that is not a string, because it has no `strip`;
  - a `level` that is an array or an object, because it is unhashable at app.py:109;
  - a `context` that is truthy but not a string, because the concatenation at app.py:163 fails;
  - a `history` that `[-10:]` cannot slice, such as an object or a number;
  - an entry among the last ten that is not an object or has no `text`;
  - a body that is not a JSON object.
- A history is a sequence of well-formed entries, so two requests the source answers normally cannot be represented:
  - a history with a malformed entry older than the last ten, which is never read;
  - a history of `""`, which slices to `""` and behaves like `[]`.
- For a malformed `level`, `context` or `history`, the model cannot represent that the source still answers 400 first. It raises only after the checks at app.py:100, 105 and 149: a blank sentence or message gets its 400 whatever those fields hold. A non-string `sentence` or `message` raises at app.py:99 or 145, before any check.
- Other non-string values fall back and are modelled as missing (`None`):
  - a `level` that is a number, a boolean or null is not a key of the table, so it becomes `intermediate` (app.py:108-110);
  - a `context` that is null, `false`, `0`, `[]` or `{}` is falsy, so it gives the placeholder (app.py:163).
- `Upstream.Raised` stands for an exception from the model call. Other exceptions the parse handler's `try` would catch are not modelled, for example from `response.text` being `None`.
- Python strings can hold lone surrogates and Dafny strings cannot. Lone surrogates lie inside the kept range U+00A0-U+FFFF, so sanitising would keep them.
- `build_prompt`'s default arguments are not modelled, because the handler always passes all three.
- The template is modelled after `str.format` has read it. The escapes `{{` and `}}` already stand for single braces, and the field names are the three keyword arguments.
- Prompt.PromptEmbedsLevel: states that the prompt contains the level block, not that it contains no other level's block.
