/**
 * What the parse handler does with the model's reply (app.py:124-138): strip
 * a Markdown code fence, hand the text to the JSON parser, and bring the
 * parsed value into the `{"sentences": [...]}` shape the page expects.
 */
module Normalizer {
  import opened Text
  import opened JsonValue

  /** The opening fence removed by `re.sub(r'^```json\s*', '', raw)`. */
  const JsonFence: string := "```json"

  /** The closing fence removed by `re.sub(r'\s*```\s*$', '', raw)`. */
  const Fence: string := "```"

  predicate StartsWith(s: string, p: string)
  {
    |p| <= |s| && s[..|p|] == p
  }

  predicate EndsWith(s: string, p: string)
  {
    |p| <= |s| && s[|s| - |p|..] == p
  }

  /** `\s*```\s*` matches the whole of `u`: whitespace, the three backticks, whitespace. */
  predicate FenceRun(u: string)
  {
    exists k :: 0 <= k <= |u| - 3 && AllSpaces(u[..k]) && u[k..k + 3] == Fence && AllSpaces(u[k + 3..])
  }

  lemma FenceTrimmed()
    ensures Trimmed(Fence) && !IsSpace('`')
  {
  }

  /** Whitespace around a fence makes a fence run. */
  lemma PaddedFence(w1: string, w2: string)
    requires AllSpaces(w1) && AllSpaces(w2)
    ensures FenceRun(w1 + Fence + w2)
  {
    var u := w1 + Fence + w2;
    var k := |w1|;
    assert u[..k] == w1 && u[k..k + 3] == Fence && u[k + 3..] == w2;
  }

  /** In a fence run every non-space character is one of the three backticks. */
  lemma FenceRunShape(u: string) returns (k: nat)
    requires FenceRun(u)
    ensures k + 3 <= |u| && u[k..k + 3] == Fence
    ensures forall p :: 0 <= p < |u| && !IsSpace(u[p]) ==> k <= p < k + 3
  {
    k :| 0 <= k <= |u| - 3 && AllSpaces(u[..k]) && u[k..k + 3] == Fence && AllSpaces(u[k + 3..]);
  }

  /** Two non-space characters three or more apart rule out a fence run. */
  lemma FarApart(u: string, p: int, q: int)
    requires 0 <= p && p + 3 <= q < |u| && !IsSpace(u[p]) && !IsSpace(u[q])
    ensures !FenceRun(u)
  {
    if FenceRun(u) {
      var k := FenceRunShape(u);
      assert false;
    }
  }

  /** `re.sub(r'^```json\s*', '', raw)`: only a fence at index 0 matches, together with all the whitespace after it. */
  function StripLeadingFence(raw: string): (r: string)
    ensures |r| <= |raw| && r == raw[|raw| - |r|..]
    ensures StartsWith(raw, JsonFence) ==>
              |JsonFence| <= |raw| - |r|
              && (forall i :: |JsonFence| <= i < |raw| - |r| ==> IsSpace(raw[i]))
              && (r != [] ==> !IsSpace(r[0]))
    ensures !StartsWith(raw, JsonFence) ==> r == raw
  {
    if StartsWith(raw, JsonFence) then TrimStart(raw[|JsonFence|..]) else raw
  }

  /** A suffix of `s` made of whitespace, a fence at `m` and whitespace is a fence run. */
  lemma FenceRunAt(s: string, a: nat, m: nat)
    requires a <= m && m + 3 <= |s| && s[m..m + 3] == Fence
    requires forall i :: a <= i < m ==> IsSpace(s[i])
    requires forall i :: m + 3 <= i < |s| ==> IsSpace(s[i])
    ensures FenceRun(s[a..])
  {
    var u := s[a..];
    var k := m - a;
    assert u[k..k + 3] == s[m..m + 3];
    var v := u[..k];
    assert AllSpaces(v) by {
      forall i | 0 <= i < |v| ensures IsSpace(v[i]) {
        assert v[i] == s[a + i];
      }
    }
    var w := u[k + 3..];
    assert AllSpaces(w) by {
      forall i | 0 <= i < |w| ensures IsSpace(w[i]) {
        assert w[i] == s[m + 3 + i];
      }
    }
  }

  /** When the right-trimmed text ends in a fence, cutting it off as below leaves a fence run. */
  lemma FencedTail(s: string, r: string)
    requires EndsWith(TrimEnd(s), Fence)
    requires r == TrimEnd(TrimEnd(s)[..|TrimEnd(s)| - 3])
    ensures |r| <= |s| && r == s[..|r|]
    ensures FenceRun(s[|r|..])
  {
    var t := TrimEnd(s);
    var c := t[..|t| - 3];
    assert r == c[..|r|];
    assert forall i :: |r| <= i < |c| ==> IsSpace(c[i]);
    CutFence(s, t, c, r);
  }

  lemma CutFence(s: string, t: string, c: string, r: string)
    requires |t| <= |s| && t == s[..|t|] && EndsWith(t, Fence) && c == t[..|t| - 3]
    requires forall i :: |t| <= i < |s| ==> IsSpace(s[i])
    requires |r| <= |c| && r == c[..|r|] && forall i :: |r| <= i < |c| ==> IsSpace(c[i])
    ensures r == s[..|r|]
    ensures FenceRun(s[|r|..])
  {
    var m := |c|;
    assert s[m..m + 3] == t[m..];
    assert forall i :: |r| <= i < m ==> IsSpace(s[i]) by {
      forall i | |r| <= i < m ensures IsSpace(s[i]) {
        assert s[i] == t[i] == c[i];
      }
    }
    FenceRunAt(s, |r|, m);
  }

  /** ... and no fence run starts earlier: the last character kept and the last backtick are three apart. */
  lemma FencedTailLeftmost(s: string, r: string)
    requires EndsWith(TrimEnd(s), Fence)
    requires r == TrimEnd(TrimEnd(s)[..|TrimEnd(s)| - 3])
    ensures forall i :: 0 <= i < |r| ==> !FenceRun(s[i..])
  {
    var t := TrimEnd(s);
    var c := t[..|t| - 3];
    assert r == c[..|r|];
    FenceTrimmed();
    assert t[|t| - 1] == Fence[2];
    NoEarlierRun(s, t, c, r);
  }

  lemma NoEarlierRun(s: string, t: string, c: string, r: string)
    requires |t| <= |s| && t == s[..|t|] && |t| >= 3 && c == t[..|t| - 3] && !IsSpace(t[|t| - 1])
    requires |r| <= |c| && r == c[..|r|] && (r != [] ==> !IsSpace(r[|r| - 1]))
    ensures forall i :: 0 <= i < |r| ==> !FenceRun(s[i..])
  {
    forall i | 0 <= i < |r|
      ensures !FenceRun(s[i..])
    {
      assert s[i..][|r| - 1 - i] == r[|r| - 1];
      assert s[i..][|t| - 1 - i] == t[|t| - 1];
      FarApart(s[i..], |r| - 1 - i, |t| - 1 - i);
    }
  }

  /** A fence run that reaches the end of `s` ends its right-trimmed text. */
  lemma FenceRunEnd(s: string, i: nat)
    requires i <= |s| && FenceRun(s[i..])
    ensures EndsWith(TrimEnd(s), Fence)
  {
    var t := TrimEnd(s);
    var u := s[i..];
    var k := FenceRunShape(u);
    FenceTrimmed();
    assert s[i + k + 2] == u[k + 2] == '`';
    assert |t| > i + k + 2;
    assert !IsSpace(u[|t| - 1 - i]) by {
      assert u[|t| - 1 - i] == t[|t| - 1];
    }
    assert |t| == i + k + 3;
    assert t[|t| - 3..] == u[k..k + 3];
  }

  /** When the right-trimmed text does not end in a fence, no suffix of the text is a fence run. */
  lemma UnfencedTail(s: string)
    requires !EndsWith(TrimEnd(s), Fence)
    ensures forall i :: 0 <= i <= |s| ==> !FenceRun(s[i..])
  {
    forall i | 0 <= i <= |s|
      ensures !FenceRun(s[i..])
    {
      if FenceRun(s[i..]) {
        FenceRunEnd(s, i);
        assert false;
      }
    }
  }

  /**
   * `re.sub(r'\s*```\s*$', '', s)`: the text before the leftmost index from
   * which a fence run reaches the end, or all of `s` when there is none.
   */
  function StripTrailingFence(s: string): (r: string)
    ensures |r| <= |s| && r == s[..|r|]
    ensures r == s || FenceRun(s[|r|..])
    ensures forall i :: 0 <= i < |r| ==> !FenceRun(s[i..])
  {
    if EndsWith(TrimEnd(s), Fence) then
      var r := TrimEnd(TrimEnd(s)[..|TrimEnd(s)| - 3]);
      FencedTail(s, r);
      FencedTailLeftmost(s, r);
      r
    else
      UnfencedTail(s);
      s
  }

  /** Lines 126-127 in sequence. */
  function StripFences(raw: string): string
  {
    StripTrailingFence(StripLeadingFence(raw))
  }

  /** The outer `strip()` leaves a fenced reply without its surrounding whitespace. */
  lemma StripFencedReply(w0: string, core: string, w3: string)
    requires AllSpaces(w0) && AllSpaces(w3)
    requires StartsWith(core, JsonFence) && EndsWith(core, Fence)
    ensures Strip(w0 + core + w3) == core
  {
    assert core[0] == core[..|JsonFence|][0] == JsonFence[0] == '`';
    assert core[|core| - 1] == core[|core| - |Fence|..][2] == Fence[2] == '`';
    StripTrimmed(core);
    StripPadded(w0, core, w3);
  }

  /** The leading fence goes with the whitespace after it. */
  lemma LeadingFenceRemoved(w1: string, rest: string)
    requires AllSpaces(w1) && rest != [] && !IsSpace(rest[0])
    ensures StripLeadingFence(JsonFence + w1 + rest) == rest
  {
    var s := JsonFence + w1 + rest;
    assert s[..|JsonFence|] == JsonFence;
    assert s[|JsonFence|..] == w1 + rest;
    TrimStartPadded(w1, rest);
  }

  /** The trailing fence goes with the whitespace before it. */
  lemma TrailingFenceRemoved(body: string, w2: string)
    requires AllSpaces(w2) && Trimmed(body) && body != []
    ensures StripTrailingFence(body + w2 + Fence) == body
  {
    var s := body + w2 + Fence;
    FenceTrimmed();
    assert TrimEnd(s) == s;
    assert EndsWith(s, Fence);
    assert s[..|s| - 3] == body + w2;
    TrimEndPadded(body, w2);
    assert TrimEnd(body) == body;
  }

  /** A reply wrapped in a `json` fence, with any whitespace around its parts, gives back exactly the text inside. */
  lemma FenceRoundTrip(w0: string, w1: string, body: string, w2: string, w3: string)
    requires AllSpaces(w0) && AllSpaces(w1) && AllSpaces(w2) && AllSpaces(w3)
    requires Trimmed(body) && body != []
    ensures StripFences(Strip(w0 + JsonFence + w1 + body + w2 + Fence + w3)) == body
  {
    var inner := body + w2 + Fence;
    var core := JsonFence + w1 + inner;
    assert w0 + JsonFence + w1 + body + w2 + Fence + w3 == w0 + core + w3;
    assert StartsWith(core, JsonFence) by {
      assert core[..|JsonFence|] == JsonFence;
    }
    assert EndsWith(core, Fence);
    StripFencedReply(w0, core, w3);
    LeadingFenceRemoved(w1, inner);
    TrailingFenceRemoved(body, w2);
  }

  /** Text with neither fence passes through unchanged. */
  lemma UnfencedUnchanged(raw: string)
    requires !StartsWith(raw, JsonFence) && !EndsWith(TrimEnd(raw), Fence)
    ensures StripFences(raw) == raw
  {
    UnfencedTail(raw);
  }

  /** A fence without the `json` tag loses only its closing half, so the opening backticks reach the JSON parser. */
  lemma UntaggedFenceKept(body: string)
    requires Trimmed(body) && body != []
    ensures StripFences(Fence + "\n" + body + "\n" + Fence) == Fence + "\n" + body
  {
    var s := Fence + "\n" + body + "\n" + Fence;
    assert s[3] == '\n' && JsonFence[3] == 'j';
    assert !StartsWith(s, JsonFence);
    var kept := Fence + "\n" + body;
    assert s == kept + "\n" + Fence;
    FenceTrimmed();
    assert kept[0] == '`' && kept[|kept| - 1] == body[|body| - 1];
    assert AllSpaces("\n");
    TrailingFenceRemoved(kept, "\n");
  }

  /**
   * The `{"sentences": [{"text": sentence, "blocks": parsed}]}` wrapper of
   * app.py:134 and app.py:136.
   */
  function Wrap(sentence: string, parsed: Json): Json
  {
    JObject(map["sentences" := JArray([JObject(map["text" := JString(sentence), "blocks" := parsed])])])
  }

  /** The shape dispatch of app.py:131-136. */
  function Normalize(sentence: string, parsed: Json): (body: Json)
    ensures HasKey(body, "sentences")
    ensures HasKey(parsed, "sentences") ==> body == parsed
    ensures !HasKey(parsed, "sentences") ==> body == Wrap(sentence, parsed)
  {
    if parsed.JObject? && "sentences" in parsed.members then parsed
    else if parsed.JArray? then Wrap(sentence, parsed)
    else Wrap(sentence, parsed)
  }

  /** The parsed value a wrapped reply carries, if it is one. */
  function WrappedBlocks(body: Json): (blocks: Json)
  {
    if body.JObject? && "sentences" in body.members && body.members["sentences"].JArray?
       && |body.members["sentences"].items| == 1
       && body.members["sentences"].items[0].JObject? && "blocks" in body.members["sentences"].items[0].members
    then body.members["sentences"].items[0].members["blocks"]
    else JNull
  }

  /** A wrapped reply keeps the parsed value and the sentence, so the wrapping loses nothing. */
  lemma WrapRecoverable(sentence: string, parsed: Json)
    requires !HasKey(parsed, "sentences")
    ensures WrappedBlocks(Normalize(sentence, parsed)) == parsed
    ensures Normalize(sentence, parsed).members["sentences"].items[0].members["text"] == JString(sentence)
  {
  }

  /** Normalizing an already normalized body changes nothing. */
  lemma NormalizeIdempotent(s1: string, s2: string, parsed: Json)
    ensures Normalize(s2, Normalize(s1, parsed)) == Normalize(s1, parsed)
  {
  }

  /** Different values that need wrapping give different bodies. */
  lemma NormalizeInjective(sentence: string, p1: Json, p2: Json)
    requires !HasKey(p1, "sentences") && !HasKey(p2, "sentences")
    requires Normalize(sentence, p1) == Normalize(sentence, p2)
    ensures p1 == p2
  {
    WrapRecoverable(sentence, p1);
    WrapRecoverable(sentence, p2);
  }
}
