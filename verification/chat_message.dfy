/** The pure decisions inside the message view: splitting a model reply
    into display text and suggestion chips, choosing a chip's icon, and
    deciding whether chips are shown. The parse runs on every text change,
    so it also sees replies that are still streaming in. */
module ChatMessage {
  import opened Wrappers
  import opened Strings
  import opened Types
  import Gemini

  /** The token that separates a reply from its suggestion payload. */
  const Delimiter: string := "<<SUGGESTIONS>>"

  /** `JSON.parse` on the suggestion payload: the decoded string list, or
      `None` where it throws. The model leaves it uninterpreted. */
  type Decoder = string -> Option<seq<string>>

  /** What the view renders: markdown text and chip labels. */
  datatype Parsed = Parsed(cleanText: string, suggestions: seq<string>)

  /** The memoised parse of a message. User entries and empty text pass
      through untouched; otherwise the text before the first delimiter,
      trimmed, is displayed, and the piece after it (up to a second
      delimiter, if any) is decoded, with a decode failure read as "no
      suggestions". */
  function ParseMessage(m: Message, decode: Decoder): (p: Parsed)
    ensures m.role == User || m.text == "" ==> p == Parsed(m.text, [])
    ensures m.role == Model && m.text != "" ==> IsTrimmed(p.cleanText) && !Contains(p.cleanText, Delimiter)
    ensures |p.suggestions| > 0 ==> Contains(m.text, Delimiter)
  {
    if m.role == User || m.text == "" then
      Parsed(m.text, [])
    else
      var parts := Split(m.text, Delimiter);
      var content := Trim(parts[0]);
      TrimKeepsAbsence(parts[0], Delimiter);
      var suggestions := if |parts| > 1 then decode(parts[1]).GetOr([]) else [];
      Parsed(content, suggestions)
  }

  /** Two occurrences of the delimiter can never overlap. */
  lemma DelimiterOverlapFree()
    ensures SelfOverlapFree(Delimiter)
  {
    forall k | 0 < k < |Delimiter|
      ensures Delimiter[k..] != Delimiter[..|Delimiter| - k]
    {
      if k == 1 {
        assert Delimiter[k..][1] != Delimiter[..|Delimiter| - k][1];
      } else {
        assert Delimiter[k..][0] != Delimiter[..|Delimiter| - k][0];
      }
    }
  }

  /** The general shape of a parse: for a model message whose text is `d`,
      the delimiter and `rest`, where `d` does not contain the delimiter, the
      display text is `d` trimmed and only the first piece of `rest` is
      decoded. */
  lemma ParseSegments(m: Message, decode: Decoder, d: string, rest: string)
    requires m.role == Model
    requires m.text == d + Delimiter + rest
    requires !Contains(d, Delimiter)
    ensures ParseMessage(m, decode) == Parsed(Trim(d), decode(Split(rest, Delimiter)[0]).GetOr([]))
  {
    DelimiterOverlapFree();
    SplitAfterFirst(d, Delimiter, rest);
  }

  /** Without a delimiter the whole text, trimmed, is displayed and there are
      no suggestions. */
  lemma ParseWithoutDelimiter(m: Message, decode: Decoder)
    requires m.role == Model && m.text != ""
    requires !Contains(m.text, Delimiter)
    ensures ParseMessage(m, decode) == Parsed(Trim(m.text), [])
  {
  }

  /** The display text is exactly the trimmed prefix before the first
      occurrence of the delimiter. */
  lemma ParseCutsAtFirstDelimiter(m: Message, decode: Decoder, i: nat)
    requires m.role == Model
    requires OccursAt(m.text, Delimiter, i)
    requires forall j: nat :: j < i ==> !OccursAt(m.text, Delimiter, j)
    ensures ParseMessage(m, decode).cleanText == Trim(m.text[..i])
  {
    assert FirstOccurrence(m.text, Delimiter, 0) == Some(i);
    SplitAtFirst(m.text, Delimiter, i);
    ParseSegments(m, decode, m.text[..i], m.text[i + |Delimiter|..]);
  }

  /** Round trip: a trimmed, delimiter-free answer followed by the delimiter
      and a payload that decodes to `s` parses back to the answer and `s`. */
  lemma ParseRoundTrip(m: Message, decode: Decoder, d: string, payload: string, s: seq<string>)
    requires m.role == Model
    requires IsTrimmed(d) && !Contains(d, Delimiter)
    requires !Contains(payload, Delimiter)
    requires decode(payload) == Some(s)
    requires m.text == d + Delimiter + payload
    ensures ParseMessage(m, decode) == Parsed(d, s)
  {
    ParseSegments(m, decode, d, payload);
    TrimmedIsFixed(d);
  }

  /** Anything after a second delimiter is ignored. */
  lemma ParseIgnoresAfterSecondDelimiter(m: Message, decode: Decoder, d: string, payload: string, tail: string)
    requires m.role == Model
    requires !Contains(d, Delimiter) && !Contains(payload, Delimiter)
    requires m.text == d + Delimiter + payload + Delimiter + tail
    ensures ParseMessage(m, decode) == Parsed(Trim(d), decode(payload).GetOr([]))
  {
    assert m.text == d + Delimiter + (payload + Delimiter + tail);
    ParseSegments(m, decode, d, payload + Delimiter + tail);
    DelimiterOverlapFree();
    SplitAfterFirst(payload, Delimiter, tail);
  }

  /** A payload that fails to decode yields no suggestions and leaves the
      display text as it would be with any decoder. */
  lemma DecodeFailureIsSwallowed(m: Message, decode: Decoder, other: Decoder, d: string, rest: string)
    requires m.role == Model
    requires m.text == d + Delimiter + rest
    requires !Contains(d, Delimiter)
    requires decode(Split(rest, Delimiter)[0]) == None
    ensures ParseMessage(m, decode).suggestions == []
    ensures ParseMessage(m, decode).cleanText == ParseMessage(m, other).cleanText == Trim(d)
  {
    ParseSegments(m, decode, d, rest);
    ParseSegments(m, other, d, rest);
  }

  /** While a reply streams in, the display text is fixed as soon as the
      delimiter has arrived: later text only feeds the payload. */
  lemma CleanTextSettlesAtDelimiter(m: Message, decode: Decoder, more: string)
    requires m.role == Model
    requires Contains(m.text, Delimiter)
    ensures ParseMessage(m.(text := m.text + more), decode).cleanText == ParseMessage(m, decode).cleanText
  {
    SplitFirstPieceStable(m.text, more, Delimiter);
  }

  /** The system instruction asks the remote model for exactly the token the
      parser splits on. */
  lemma InstructionNamesDelimiter()
    ensures Contains(Gemini.Instruction.SocraticTutor.Text(), Delimiter)
  {
    var rest := Gemini.InstructionFormatExample + Gemini.SuggestionsTag + Gemini.InstructionExampleChips;
    assert Gemini.SuggestionsTag == Delimiter;
    assert OccursAt(Delimiter, Delimiter, 0);
    OccursInMiddle(Gemini.InstructionHead, Delimiter, rest, Delimiter, 0);
  }

  // ---------------------------------------------------------------------
  // chips
  // ---------------------------------------------------------------------

  /** The chips row is rendered for a model message that is not thinking
      and has at least one suggestion. */
  predicate ShowsChips(m: Message, p: Parsed) {
    m.role != User && !IsThinking(m) && |p.suggestions| > 0
  }

  /** Chips appear only under a model message that is not thinking and
      whose text carries the delimiter. */
  lemma ChipsNeedDelimiter(m: Message, decode: Decoder)
    ensures ShowsChips(m, ParseMessage(m, decode)) ==>
      m.role == Model && !IsThinking(m) && Contains(m.text, Delimiter)
  {
  }

  /** For a finished reply in the instructed format, chips appear exactly when
      the message is not thinking and the decoded list is not empty; a
      message without the optional flag counts as not thinking. */
  lemma ChipsForWellFormedReply(m: Message, decode: Decoder, d: string, payload: string, s: seq<string>)
    requires m.role == Model
    requires IsTrimmed(d) && !Contains(d, Delimiter)
    requires !Contains(payload, Delimiter)
    requires decode(payload) == Some(s)
    requires m.text == d + Delimiter + payload
    ensures ShowsChips(m, ParseMessage(m, decode)) <==> m.isThinking != Some(true) && |s| > 0
  {
    ParseRoundTrip(m, decode, d, payload, s);
  }

  // ---------------------------------------------------------------------
  // icons
  // ---------------------------------------------------------------------

  datatype Icon = GraduationCap | BookOpen | Lightbulb | Sparkles

  /** The icon of a chip, chosen by case-insensitive keyword with priority
      "quiz", then "module", then "reasoning" or "steps", then a default. */
  function IconFor(suggestion: string): (icon: Icon)
    ensures icon == GraduationCap <==> ContainsIgnoringCase(suggestion, "quiz")
    ensures icon == BookOpen <==>
      !ContainsIgnoringCase(suggestion, "quiz") && ContainsIgnoringCase(suggestion, "module")
    ensures icon == Lightbulb <==>
      && !ContainsIgnoringCase(suggestion, "quiz") && !ContainsIgnoringCase(suggestion, "module")
      && (ContainsIgnoringCase(suggestion, "reasoning") || ContainsIgnoringCase(suggestion, "steps"))
    ensures icon == Sparkles <==>
      && !ContainsIgnoringCase(suggestion, "quiz") && !ContainsIgnoringCase(suggestion, "module")
      && !ContainsIgnoringCase(suggestion, "reasoning") && !ContainsIgnoringCase(suggestion, "steps")
  {
    var lower := ToLower(suggestion);
    LowerContains(suggestion, "quiz");
    LowerContains(suggestion, "module");
    LowerContains(suggestion, "reasoning");
    LowerContains(suggestion, "steps");
    if Contains(lower, "quiz") then GraduationCap
    else if Contains(lower, "module") then BookOpen
    else if Contains(lower, "reasoning") || Contains(lower, "steps") then Lightbulb
    else Sparkles
  }

  /** Labels that agree up to letter case get the same icon. */
  lemma IconIgnoresCase(a: string, b: string)
    requires |a| == |b|
    requires forall i :: 0 <= i < |a| ==> LowerChar(a[i]) == LowerChar(b[i])
    ensures IconFor(a) == IconFor(b)
  {
    forall word: string
      ensures ContainsIgnoringCase(a, word) <==> ContainsIgnoringCase(b, word)
    {
      forall i: nat | i <= |a|
        ensures MatchesIgnoringCase(a, word, i) <==> MatchesIgnoringCase(b, word, i)
      {
        if MatchesIgnoringCase(a, word, i) {
          assert MatchesIgnoringCase(b, word, i);
        }
        if MatchesIgnoringCase(b, word, i) {
          assert MatchesIgnoringCase(a, word, i);
        }
      }
    }
  }
}
