/**
 * The input side of the parse handler: trimming and sanitising the sentence
 * (app.py:99-106) and the script-density test that decides whether the
 * external model must translate before parsing (app.py:113-115).
 */
module Sanitizer {
  import opened Wrappers
  import opened Text

  /** The sanitiser's character class: U+0020 to U+007E (printable ASCII) and U+00A0 to U+FFFF. */
  predicate Allowed(c: char)
  {
    (' ' <= c <= '~') || ('\U{A0}' <= c <= '\U{FFFF}')
  }

  /** One match of the negated class is replaced by one space. */
  function Scrub(c: char): char
  {
    if Allowed(c) then c else ' '
  }

  /** The regex substitution of app.py:104: each character outside the class becomes one space. */
  function ReplaceDisallowed(s: string): (r: string)
    ensures |r| == |s|
    ensures forall i :: 0 <= i < |s| ==> r[i] == (if Allowed(s[i]) then s[i] else ' ')
  {
    if s == [] then [] else [Scrub(s[0])] + ReplaceDisallowed(s[1..])
  }

  /** The error texts of the two 400 replies. */
  const NoSentence := "No sentence provided"
  const NoValidText := "No valid text after sanitization"

  /** Trim, reject empty, replace disallowed characters by spaces, trim again, reject empty. */
  function Sanitize(raw: string): (r: Result<string, string>)
    ensures r == Failure(NoSentence) <==> AllSpaces(raw)
    ensures r.Failure? ==> r.error == NoSentence || r.error == NoValidText
    ensures r.Success? ==> r.value != [] && Trimmed(r.value)
    ensures r.Success? ==> forall i :: 0 <= i < |r.value| ==> Allowed(r.value[i])
  {
    StripEmptyIff(raw);
    var sentence := Strip(raw);
    if sentence == [] then Failure(NoSentence)
    else
      var cleaned := Strip(ReplaceDisallowed(sentence));
      ReplaceAllAllowed(sentence);
      StripKeepsAllowed(ReplaceDisallowed(sentence));
      if cleaned == [] then Failure(NoValidText) else Success(cleaned)
  }

  /** Trimming a string of allowed characters leaves allowed characters. */
  lemma StripKeepsAllowed(s: string)
    requires forall i :: 0 <= i < |s| ==> Allowed(s[i])
    ensures forall i :: 0 <= i < |Strip(s)| ==> Allowed(Strip(s)[i])
  {
    var pre, post := StripSplit(s);
    forall i | 0 <= i < |Strip(s)| ensures Allowed(Strip(s)[i]) {
      assert Strip(s)[i] == s[|pre| + i];
    }
  }

  /** Replacement maps every character to an allowed one. */
  lemma ReplaceAllAllowed(s: string)
    ensures forall i :: 0 <= i < |s| ==> Allowed(ReplaceDisallowed(s)[i])
  {
  }

  /** Replacing a second time changes nothing. */
  lemma ReplaceIdempotent(s: string)
    ensures ReplaceDisallowed(ReplaceDisallowed(s)) == ReplaceDisallowed(s)
  {
  }

  /** A string of allowed characters is left as it is. */
  lemma ReplaceAllowed(s: string)
    requires forall i :: 0 <= i < |s| ==> Allowed(s[i])
    ensures ReplaceDisallowed(s) == s
  {
  }

  /** Replacement works character by character, so it distributes over concatenation. */
  lemma ReplaceAppend(a: string, b: string)
    ensures ReplaceDisallowed(a + b) == ReplaceDisallowed(a) + ReplaceDisallowed(b)
  {
  }

  /** Whitespace stays whitespace: a disallowed space becomes ' ' and an allowed one is kept. */
  lemma ReplaceKeepsSpaces(s: string)
    requires AllSpaces(s)
    ensures AllSpaces(ReplaceDisallowed(s))
  {
  }

  /**
   * The two-pass sanitiser is one pass: trimming before the replacement never
   * matters, because every whitespace character is still whitespace after it.
   * So a sentence is accepted exactly when the replaced input is not blank,
   * and the accepted text is the trimmed replaced input.
   */
  lemma SanitizeOnePass(raw: string)
    ensures Sanitize(raw).Success? <==> Strip(ReplaceDisallowed(raw)) != []
    ensures Sanitize(raw).Success? ==> Sanitize(raw).value == Strip(ReplaceDisallowed(raw))
  {
    var pre, post := StripSplit(raw);
    var mid := Strip(raw);
    ReplaceAppend(pre, mid);
    ReplaceAppend(pre + mid, post);
    ReplaceKeepsSpaces(pre);
    ReplaceKeepsSpaces(post);
    StripPadded(ReplaceDisallowed(pre), ReplaceDisallowed(mid), ReplaceDisallowed(post));
  }

  /** Sanitising an accepted sentence accepts it again, unchanged. */
  lemma SanitizeIdempotent(raw: string)
    requires Sanitize(raw).Success?
    ensures Sanitize(Sanitize(raw).value) == Sanitize(raw)
  {
    var v := Sanitize(raw).value;
    StripTrimmed(v);
    ReplaceAllowed(v);
  }

  /**
   * Input made only of disallowed characters, not all of them whitespace, passes
   * the first check and fails the second.
   */
  lemma ControlOnlyRejected(s: string)
    requires forall i :: 0 <= i < |s| ==> !Allowed(s[i])
    requires exists i :: 0 <= i < |s| && !IsSpace(s[i])
    ensures Sanitize(s) == Failure(NoValidText)
  {
    assert AllSpaces(ReplaceDisallowed(s));
    StripEmptyIff(ReplaceDisallowed(s));
    SanitizeOnePass(s);
  }

  /** The number of characters of general category Lo, `isLo` standing for `unicodedata.category(c) == 'Lo'`. */
  function CountLo(s: string, isLo: char -> bool): (n: nat)
    ensures n <= |s|
  {
    if s == [] then 0 else (if isLo(s[0]) then 1 else 0) + CountLo(s[1..], isLo)
  }

  /** `non_latin_count > len(sentence) * 0.1`, stated on integers. */
  predicate NeedsTranslation(s: string, isLo: char -> bool)
  {
    10 * CountLo(s, isLo) > |s|
  }

  /** CountLo counts exactly the Lo characters: none means zero, all means the length. */
  lemma {:induction false} CountLoBounds(s: string, isLo: char -> bool)
    ensures (forall i :: 0 <= i < |s| ==> !isLo(s[i])) ==> CountLo(s, isLo) == 0
    ensures (forall i :: 0 <= i < |s| ==> isLo(s[i])) ==> CountLo(s, isLo) == |s|
    ensures (exists i :: 0 <= i < |s| && isLo(s[i])) ==> CountLo(s, isLo) > 0
  {
    if s != [] {
      CountLoBounds(s[1..], isLo);
      assert forall i :: 1 <= i < |s| ==> s[i] == s[1..][i - 1];
      if !isLo(s[0]) && exists i :: 0 <= i < |s| && isLo(s[i]) {
        var i :| 0 <= i < |s| && isLo(s[i]);
        assert isLo(s[1..][i - 1]);
      }
    }
  }

  /** Counting distributes over concatenation. */
  lemma {:induction false} CountLoAppend(a: string, b: string, isLo: char -> bool)
    ensures CountLo(a + b, isLo) == CountLo(a, isLo) + CountLo(b, isLo)
  {
    if a != [] {
      assert (a + b)[1..] == a[1..] + b;
      CountLoAppend(a[1..], b, isLo);
    } else {
      assert a + b == b;
    }
  }

  /** A sentence without Lo characters is never sent for translation. */
  lemma NoLoNoTranslation(s: string, isLo: char -> bool)
    requires forall i :: 0 <= i < |s| ==> !isLo(s[i])
    ensures !NeedsTranslation(s, isLo)
  {
    CountLoBounds(s, isLo);
  }

  /** A non-empty sentence made only of Lo characters always is. */
  lemma AllLoTranslation(s: string, isLo: char -> bool)
    requires s != []
    requires forall i :: 0 <= i < |s| ==> isLo(s[i])
    ensures NeedsTranslation(s, isLo)
  {
    CountLoBounds(s, isLo);
  }

  /**
   * The threshold is strict: one Lo character in ten does not trigger translation.
   * "h\u00E9llo \u732B123" has ten characters, and U+732B is the only one of them in category Lo.
   */
  lemma ThresholdIsStrict(isLo: char -> bool)
    requires isLo('\U{732B}')
    requires !isLo('h') && !isLo('\U{E9}') && !isLo('l') && !isLo('o') && !isLo(' ')
    requires !isLo('1') && !isLo('2') && !isLo('3')
    ensures !NeedsTranslation("h\U{E9}llo \U{732B}123", isLo)
  {
    SingleLo("h\U{E9}llo ", '\U{732B}', "123", isLo);
    assert "h\U{E9}llo \U{732B}123" == "h\U{E9}llo " + ['\U{732B}'] + "123";
  }

  /** Without the space the same sentence is one character shorter, and one Lo character in nine is enough. */
  lemma ThresholdPassed(isLo: char -> bool)
    requires isLo('\U{732B}')
    requires !isLo('h') && !isLo('\U{E9}') && !isLo('l') && !isLo('o')
    requires !isLo('1') && !isLo('2') && !isLo('3')
    ensures NeedsTranslation("h\U{E9}llo\U{732B}123", isLo)
  {
    SingleLo("h\U{E9}llo", '\U{732B}', "123", isLo);
    assert "h\U{E9}llo\U{732B}123" == "h\U{E9}llo" + ['\U{732B}'] + "123";
  }

  /** One Lo character between two runs without any counts as one. */
  lemma SingleLo(a: string, c: char, b: string, isLo: char -> bool)
    requires forall i :: 0 <= i < |a| ==> !isLo(a[i])
    requires forall i :: 0 <= i < |b| ==> !isLo(b[i])
    requires isLo(c)
    ensures CountLo(a + [c] + b, isLo) == 1
  {
    CountLoAppend(a + [c], b, isLo);
    CountLoAppend(a, [c], isLo);
    CountLoBounds(a, isLo);
    CountLoBounds(b, isLo);
    assert [c][1..] == [];
  }
}
