/**
 * The instruction text sent to the external model for a parse request:
 * `build_prompt` with the `LEVEL_INSTRUCTIONS` and `PARSE_PROMPT_BASE`
 * templates (app.py:14-86), and the level fallback of the parse handler
 * (app.py:108-110).
 */
module Prompt {
  import opened Wrappers
  import opened Text
  import opened Format

  /** The block of `LEVEL_INSTRUCTIONS` for each level (app.py:15-35). */
  const BeginnerRules: string :=
    "TRANSLATION LEVEL: Beginner\n"
    + "- Use simple, short sentences (SVO structure)\n"
    + "- Avoid relative clauses, subordinate clauses, and complex nesting\n"
    + "- Use common everyday vocabulary (CEFR A1-A2)\n"
    + "- Maximum 1 sentence, under 10 words\n"
    + "- Example: \"I like cats.\" / \"She goes to school.\"\n"

  const IntermediateRules: string :=
    "TRANSLATION LEVEL: Intermediate\n"
    + "- Use natural, common expressions and idioms\n"
    + "- Allow moderate complexity: one level of nesting (e.g., one relative clause or subordinate clause)\n"
    + "- Use common collocations and phrasal verbs (CEFR B1-B2)\n"
    + "- 1-2 sentences, 10-20 words each\n"
    + "- Example: \"I think she knows the answer.\" / \"The book that I read was interesting.\"\n"

  const AdvancedRules: string :=
    "TRANSLATION LEVEL: Advanced\n"
    + "- Use complex, sophisticated sentence structures\n"
    + "- Include multiple levels of nesting: relative clauses, subordinate clauses, participial phrases\n"
    + "- Use academic/literary vocabulary and complex constructions (CEFR C1-C2)\n"
    + "- Allow long, multi-clause sentences\n"
    + "- Example: \"The theory, which had been proposed by researchers who studied the phenomenon for decades, was finally validated.\"\n"

  /** The literal runs of `PARSE_PROMPT_BASE` (app.py:38-66) between its three fields, with `{{` and `}}` already read as single braces. */
  const Opening: string :=
    "You are a structural English sentence parser with Japanese translation.\n"
    + "\n"

  const Gap: string :=
    "\n"
    + "\n"

  const RulesHead: string :=
    "\n"
    + "\n"
    + "Analyze the English sentence(s) and return JSON.\n"
    + "\n"
    + "RULES:\n"
    + "1. Break into sentences. Each sentence gets: \"text\" (original English), \"ja\" (Japanese translation), \"blocks\" (structure array)"

  const RulesTail: string :=
    "\n"
    + "2. Each block has: \"role\", and either \"text\"+\"ja\"+\"words\" (leaf) or \"children\" (nested)\n"
    + "3. Roles: S (subject), V (verb), O (object), C (complement), M (modifier), CONJ (conjunction), REL (relative clause), SUB (subordinate clause)\n"
    + "4. \"words\" is an array of {\"en\":\"word\",\"ja\":\"contextual translation\"} for each word in \"text\"\n"
    + "5. Nested blocks (with \"children\") also need \"ja\" (translation of the whole clause)\n"
    + "6. Keep original text exactly as-is\n"
    + "7. Return ONLY valid JSON, no markdown fences\n"
    + "8. IMPORTANT: Decompose as deeply as possible. NEVER leave long phrases as a single flat text block. Always split:\n"
    + "   - Relative clauses (who/which/that) \U{2192} REL with children containing SVO\n"
    + "   - Subordinate clauses \U{2192} SUB with children\n"
    + "   - Prepositional phrases (by/at/in/on/of/for/with/from/into/through...) \U{2192} separate M blocks\n"
    + "   - Appositive phrases (\", a mathematics don\") \U{2192} separate M block\n"
    + "   - Compound modifiers \U{2192} separate blocks\n"
    + "   Each leaf block should be SHORT \U{2014} ideally under 6 words. If longer, find a way to split further.\n"
    + "\n"
    + "OUTPUT FORMAT:\n"
    + "{\"sentences\":[{\"text\":\"...\",\"ja\":\"...\",\"blocks\":[...]}]}\n"
    + "\n"
    + "Parse this:\n"

  const DefaultLevel := "intermediate"

  /** `LEVEL_INSTRUCTIONS` */
  const LevelInstructions: map<string, string> :=
    map["beginner" := BeginnerRules, "intermediate" := IntermediateRules, "advanced" := AdvancedRules]

  /** The level a parse request is served at: the requested one when it is a key, `intermediate` otherwise. */
  function SelectLevel(requested: Option<string>): (level: string)
    ensures level in LevelInstructions
    ensures requested.Some? && requested.value in LevelInstructions ==> level == requested.value
    ensures requested.None? || requested.value !in LevelInstructions ==> level == DefaultLevel
  {
    var level := if requested.Some? then requested.value else DefaultLevel;
    if level in LevelInstructions then level else DefaultLevel
  }

  /** The lookup of app.py:80, which falls back to the intermediate block. */
  function LevelInstruction(level: string): string
  {
    if level in LevelInstructions then LevelInstructions[level] else LevelInstructions[DefaultLevel]
  }

  /** `LEVEL_INSTRUCTIONS` has exactly the three keys. */
  lemma LevelKeys(level: string)
    ensures level in LevelInstructions <==> level == "beginner" || level == "intermediate" || level == "advanced"
  {
  }

  /** The beginner level has its own block. */
  lemma LevelBeginner()
    ensures LevelInstruction("beginner") == BeginnerRules
  {
  }

  /** The advanced level has its own block. */
  lemma LevelAdvanced()
    ensures LevelInstruction("advanced") == AdvancedRules
  {
  }

  /** Any level other than the beginner and advanced ones gets the intermediate block. */
  lemma LevelFallback(level: string)
    requires level != "beginner" && level != "advanced"
    ensures LevelInstruction(level) == IntermediateRules
  {
    if level in LevelInstructions {
      LevelKeys(level);
    }
  }

  /** The two settings of the translate field and of the source field (app.py:69-78). */
  const NotEnglishInstruction: string :=
    "The input is NOT in English. First translate it into natural English "
    + "at the specified level, then parse the English translation. "
    + "Include \"source\" field in each sentence with the original input text."

  const SourceFieldLine: string :=
    "\n   Also include \"source\" (the original non-English input) in each sentence object"

  const EnglishInstruction: string :=
    "The input is in English. Parse it directly."

  function TranslateInstruction(translate: bool): string
  {
    if translate then NotEnglishInstruction else EnglishInstruction
  }

  function SourceField(translate: bool): string
  {
    if translate then SourceFieldLine else ""
  }

  /** The shape of `PARSE_PROMPT_BASE`: four literal runs around its three fields. */
  function Template(opening: string, gap: string, head: string, tail: string): seq<Piece>
  {
    [Lit(opening), Slot("translate_instruction"), Lit(gap), Slot("level_instruction"),
     Lit(head), Slot("source_field"), Lit(tail)]
  }

  /** `PARSE_PROMPT_BASE` as `str.format` reads it. */
  const ParsePromptBase: seq<Piece> := Template(Opening, Gap, RulesHead, RulesTail)

  /** The keyword arguments of the `format` call at app.py:82-86. */
  function Args(translateInstruction: string, levelInstruction: string, sourceField: string): (args: map<string, string>)
    ensures Fillable(ParsePromptBase, args)
  {
    map["translate_instruction" := translateInstruction,
        "level_instruction" := levelInstruction,
        "source_field" := sourceField]
  }

  function PromptArgs(level: string, translate: bool): (args: map<string, string>)
    ensures Fillable(ParsePromptBase, args)
  {
    Args(TranslateInstruction(translate), LevelInstruction(level), SourceField(translate))
  }

  /** `build_prompt(sentence, level, translate)` */
  function BuildPrompt(sentence: string, level: string, translate: bool): string
  {
    Fill(ParsePromptBase, PromptArgs(level, translate))
  }

  /** Filling the template puts the three arguments between its four literal runs. */
  lemma FillTemplate(opening: string, gap: string, head: string, tail: string,
                     translateInstruction: string, levelInstruction: string, sourceField: string)
    ensures Fillable(Template(opening, gap, head, tail), Args(translateInstruction, levelInstruction, sourceField))
    ensures Fill(Template(opening, gap, head, tail), Args(translateInstruction, levelInstruction, sourceField))
         == opening + translateInstruction + gap + levelInstruction + head + sourceField + tail
  {
    FillSeven(Template(opening, gap, head, tail), Args(translateInstruction, levelInstruction, sourceField));
    assert opening + (translateInstruction + (gap + (levelInstruction + (head + (sourceField + tail)))))
        == opening + translateInstruction + gap + levelInstruction + head + sourceField + tail;
  }

  /** The prompt is the template text with the three chosen blocks in its three fields. */
  lemma PromptLayout(sentence: string, level: string, translate: bool)
    ensures BuildPrompt(sentence, level, translate)
         == Opening + TranslateInstruction(translate) + Gap + LevelInstruction(level)
            + RulesHead + SourceField(translate) + RulesTail
  {
    FillTemplate(Opening, Gap, RulesHead, RulesTail,
                 TranslateInstruction(translate), LevelInstruction(level), SourceField(translate));
  }

  /** Each of the three filled fields is a substring of the filled template. */
  lemma FieldsOccur(opening: string, ti: string, gap: string, li: string, head: string, sf: string, tail: string)
    ensures Contains(opening + ti + gap + li + head + sf + tail, ti)
    ensures Contains(opening + ti + gap + li + head + sf + tail, li)
    ensures Contains(opening + ti + gap + li + head + sf + tail, sf)
  {
    var s := opening + ti + gap + li + head + sf + tail;
    assert s == opening + ti + (gap + li + head + sf + tail);
    ContainsMiddle(opening, ti, gap + li + head + sf + tail);
    assert s == (opening + ti + gap) + li + (head + sf + tail);
    ContainsMiddle(opening + ti + gap, li, head + sf + tail);
    assert s == (opening + ti + gap + li + head) + sf + tail;
    ContainsMiddle(opening + ti + gap + li + head, sf, tail);
  }

  /** The prompt embeds the block of the level it is built for. */
  lemma PromptEmbedsLevel(sentence: string, level: string, translate: bool)
    ensures Contains(BuildPrompt(sentence, level, translate), LevelInstruction(level))
  {
    PromptLayout(sentence, level, translate);
    FieldsOccur(Opening, TranslateInstruction(translate), Gap, LevelInstruction(level),
                RulesHead, SourceField(translate), RulesTail);
  }

  /** With `translate` set the prompt asks for a translation and for the `source` field. */
  lemma PromptTranslated(sentence: string, level: string)
    ensures Contains(BuildPrompt(sentence, level, true), NotEnglishInstruction)
    ensures Contains(BuildPrompt(sentence, level, true), SourceFieldLine)
  {
    PromptLayout(sentence, level, true);
    FieldsOccur(Opening, TranslateInstruction(true), Gap, LevelInstruction(level),
                RulesHead, SourceField(true), RulesTail);
  }

  /** Without `translate` the prompt says the input is English and leaves the source field empty. */
  lemma PromptInEnglish(sentence: string, level: string)
    ensures Contains(BuildPrompt(sentence, level, false), EnglishInstruction)
    ensures BuildPrompt(sentence, level, false)
            == Opening + EnglishInstruction + Gap + LevelInstruction(level) + RulesHead + "" + RulesTail
  {
    PromptLayout(sentence, level, false);
    FieldsOccur(Opening, TranslateInstruction(false), Gap, LevelInstruction(level),
                RulesHead, SourceField(false), RulesTail);
  }

  /** The sentence argument of `build_prompt` is not part of the template. */
  lemma PromptIgnoresSentence(s1: string, s2: string, level: string, translate: bool)
    ensures BuildPrompt(s1, level, translate) == BuildPrompt(s2, level, translate)
  {
  }
}
