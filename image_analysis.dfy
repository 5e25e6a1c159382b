/** Phase 2: cleaning the model's reply to a face-image analysis and pulling
    the JSON object out of it. */
module ImageAnalysis {
  import opened Wrappers
  import opened Text
  import opened Json
  import opened Fences

  const LeftDoubleQuote: char := '\U{201C}'
  const RightDoubleQuote: char := '\U{201D}'
  const RightSingleQuote: char := '\U{2019}'

  // ------------------------------------------- re.sub(r'^\s*```[a-zA-Z]*', ...)

  /** At this point the pattern ^\s*``` matches: a whitespace run (which may
      cross line ends) followed by a fence. */
  predicate LineFenceAt(s: string)
  {
    OccursAt(s, Fence, LeadingRun(s, IsSpace))
  }

  /** re.sub(r'^\s*```[a-zA-Z]*', '', s, flags=re.MULTILINE), scanning left to
      right; `atLineStart` says whether ^ matches here (start of the text or
      just after a newline). A match ends with a backtick or a letter, so the
      scan resumes away from any line start. */
  function LineFenceTags(s: string, atLineStart: bool): string
    decreases |s|
  {
    if s == [] then []
    else if atLineStart && LineFenceAt(s) then
      var rest := s[LeadingRun(s, IsSpace) + 3..];
      LineFenceTags(rest[LeadingRun(rest, IsAsciiLetter)..], false)
    else [s[0]] + LineFenceTags(s[1..], s[0] == '\n')
  }

  /** Without backticks there is nothing to match. */
  lemma {:induction false} LineFenceTagsNoTicks(s: string, atLineStart: bool)
    requires '`' !in s
    ensures LineFenceTags(s, atLineStart) == s
    decreases |s|
  {
    if s != [] {
      assert !LineFenceAt(s) by {
        var w := LeadingRun(s, IsSpace);
        if w + 3 <= |s| {
          assert s[w..w + 3][0] == s[w];
        }
      }
      LineFenceTagsNoTicks(s[1..], s[0] == '\n');
      assert s == [s[0]] + s[1..];
    }
  }

  /** An opening fence with its language tag is removed from the first line. */
  lemma OpeningFenceRemoved(tag: string, body: string)
    requires forall i :: 0 <= i < |tag| ==> IsAsciiLetter(tag[i])
    requires body == [] || !IsAsciiLetter(body[0])
    requires '`' !in body
    ensures LineFenceTags(Fence + tag + body, true) == body
  {
    var s := Fence + (tag + body);
    assert Fence + tag + body == s;
    assert s[0] == '`' && !IsSpace('`');
    assert LeadingRun(s, IsSpace) == 0;
    assert s[0..3] == Fence;
    assert LineFenceAt(s);
    var rest := s[3..];
    assert rest == tag + body;
    LeadingRunAppend(tag, body, IsAsciiLetter);
    assert LeadingRun(body, IsAsciiLetter) == 0;
    assert LeadingRun(rest, IsAsciiLetter) == |tag|;
    assert rest[|tag|..] == body;
    assert LineFenceTags(s, true) == LineFenceTags(body, false);
    LineFenceTagsNoTicks(body, false);
  }

  // ---------------------------------------------- re.sub(r'```\s*$', ...)

  /** re.sub(r'```\s*$', '', s, flags=re.MULTILINE), scanning left to right.
      At a fence the greedy \s* takes the whole whitespace run after it; $
      then holds only at the end of the text, otherwise the match backs off
      to the last newline inside the run (which stays in the text), and
      without such a newline there is no match here. */
  function TailFences(s: string): string
    decreases |s|
  {
    if |s| < 3 then s
    else if s[..3] == Fence then
      var r := s[3..];
      var w := LeadingRun(r, IsSpace);
      if w == |r| then []
      else
        var k := RFind(r[..w], '\n');
        if k >= 0 then TailFences(r[k..]) else [s[0]] + TailFences(s[1..])
    else [s[0]] + TailFences(s[1..])
  }

  /** Text without backticks before the first fence passes through. */
  lemma {:induction false} TailFencesPrefix(x: string, t: string)
    requires '`' !in x
    ensures TailFences(x + t) == x + TailFences(t)
    decreases |x|
  {
    if x != [] {
      var s := x + t;
      assert s[0] == x[0];
      assert s[1..] == x[1..] + t;
      if |s| >= 3 {
        assert s[..3][0] == x[0];
      }
      TailFencesPrefix(x[1..], t);
      assert x == [x[0]] + x[1..];
    } else {
      assert x + t == t;
    }
  }

  /** Without backticks there is nothing to match. */
  lemma TailFencesNoTicks(s: string)
    requires '`' !in s
    ensures TailFences(s) == s
  {
    TailFencesPrefix(s, []);
    assert s + [] == s;
  }

  /** A closing fence followed only by whitespace is removed with that
      whitespace. */
  lemma ClosingFenceRemoved(body: string, pad: string)
    requires '`' !in body
    requires forall i :: 0 <= i < |pad| ==> IsSpace(pad[i])
    ensures TailFences(body + Fence + pad) == body
  {
    TailFencesPrefix(body, Fence + pad);
    var s := Fence + pad;
    assert s[..3] == Fence;
    assert s[3..] == pad;
    LeadingRunAppend(pad, [], IsSpace);
    assert pad + [] == pad;
    assert body + Fence + pad == body + (Fence + pad);
    assert body + [] == body;
  }

  // ------------------------------------------------------------ clean_response

  /** Replace the curly quotes by straight ones. */
  function StraightenQuotes(s: string): (r: string)
    ensures LeftDoubleQuote !in r && RightDoubleQuote !in r && RightSingleQuote !in r
  {
    var a := Replace(s, [LeftDoubleQuote], "\"");
    var b := Replace(a, [RightDoubleQuote], "\"");
    var c := Replace(b, [RightSingleQuote], "'");
    ReplaceCharGone(s, LeftDoubleQuote, "\"");
    ReplaceKeepsOut(a, [RightDoubleQuote], "\"", LeftDoubleQuote);
    ReplaceKeepsOut(b, [RightSingleQuote], "'", LeftDoubleQuote);
    ReplaceCharGone(a, RightDoubleQuote, "\"");
    ReplaceKeepsOut(b, [RightSingleQuote], "'", RightDoubleQuote);
    ReplaceCharGone(b, RightSingleQuote, "'");
    c
  }

  /** Straightening quotes cannot bring back a backtick. */
  lemma StraightenKeepsNoTicks(s: string)
    requires '`' !in s
    ensures '`' !in StraightenQuotes(s)
  {
    var a := Replace(s, [LeftDoubleQuote], "\"");
    var b := Replace(a, [RightDoubleQuote], "\"");
    ReplaceKeepsOut(s, [LeftDoubleQuote], "\"", '`');
    ReplaceKeepsOut(a, [RightDoubleQuote], "\"", '`');
    ReplaceKeepsOut(b, [RightSingleQuote], "'", '`');
  }

  /** Phase2Service.clean_response as evidently intended (the corrected
      reading of line 27): drop every backtick, straighten the curly quotes,
      trim, then the two fence-removing regex passes (which find nothing
      left to remove). */
  function CleanResponse(text: string): (r: string)
    ensures '`' !in r
    ensures Trimmed(r)
    ensures LeftDoubleQuote !in r && RightDoubleQuote !in r && RightSingleQuote !in r
  {
    var noTicks := Replace(text, "`", "");
    RemoveCharGone(text, '`');
    StraightenKeepsNoTicks(noTicks);
    var t := Strip(StraightenQuotes(noTicks));
    StripKeepsOut(StraightenQuotes(noTicks), '`');
    StripKeepsOut(StraightenQuotes(noTicks), LeftDoubleQuote);
    StripKeepsOut(StraightenQuotes(noTicks), RightDoubleQuote);
    StripKeepsOut(StraightenQuotes(noTicks), RightSingleQuote);
    LineFenceTagsNoTicks(t, true);
    TailFencesNoTicks(t);
    TailFences(LineFenceTags(t, true))
  }

  /** The regex passes leave the trimmed, backtick-free text exactly as it is. */
  lemma CleanResponseIsStripped(text: string)
    ensures CleanResponse(text) == Strip(StraightenQuotes(Replace(text, "`", "")))
  {
    var noTicks := Replace(text, "`", "");
    RemoveCharGone(text, '`');
    StraightenKeepsNoTicks(noTicks);
    var t := Strip(StraightenQuotes(noTicks));
    StripKeepsOut(StraightenQuotes(noTicks), '`');
    LineFenceTagsNoTicks(t, true);
    TailFencesNoTicks(t);
  }

  /** Text without curly quotes is not changed by straightening. */
  lemma StraightenNone(s: string)
    requires LeftDoubleQuote !in s && RightDoubleQuote !in s && RightSingleQuote !in s
    ensures StraightenQuotes(s) == s
  {
    CharAbsent(s, LeftDoubleQuote);
    ReplaceAbsent(s, [LeftDoubleQuote], "\"");
    CharAbsent(s, RightDoubleQuote);
    ReplaceAbsent(s, [RightDoubleQuote], "\"");
    CharAbsent(s, RightSingleQuote);
    ReplaceAbsent(s, [RightSingleQuote], "'");
  }

  /** The corrected cleaning of a fenced reply: only the backticks of the
      fences go and every curly quote is straightened, so the language tag
      stays in front of the straightened body. */
  lemma CleanFencedResponseCorrected(tag: string, body: string)
    requires '`' !in tag && '`' !in body
    ensures CleanResponse(Fence + tag + "\n" + body + "\n" + Fence)
         == Strip(StraightenQuotes(tag + "\n" + body + "\n"))
  {
    var s := Fence + tag + "\n" + body + "\n" + Fence;
    var m := tag + "\n" + body + "\n";
    assert s == Fence + (m + Fence);
    CleanResponseIsStripped(s);
    RemoveTicksPrefix(m + Fence);
    RemoveTicksSuffix(m);
    RemoveTicksNone(m);
  }

  /** Trimming the text around an object does not change what is extracted. */
  lemma ExtractStripped(pre: string, obj: string, post: string)
    requires Braced(obj) && '{' !in pre && '}' !in post
    ensures ExtractObject(Strip(pre + obj + post)) == Some(obj)
  {
    var i, j := StripAround(pre, obj, post);
    var p, q := pre[i..], post[..j];
    assert '{' !in p by {
      forall k | 0 <= k < |p| ensures p[k] != '{' {
        assert p[k] == pre[i + k];
      }
    }
    assert '}' !in q by {
      forall k | 0 <= k < |q| ensures q[k] != '}' {
        assert q[k] == post[k];
      }
    }
    ExtractObjectOf(p, obj, q);
  }

  lemma RemoveTicksPrefix(s: string)
    ensures Replace(Fence + s, "`", "") == Replace(s, "`", "")
  {
    RemoveCharAround([], "``" + s, '`');
    assert [] + "`" + ("``" + s) == Fence + s;
    RemoveCharAround([], "`" + s, '`');
    assert [] + "`" + ("`" + s) == "``" + s;
    RemoveCharAround([], s, '`');
    assert [] + "`" + s == "`" + s;
    assert Replace([], "`", "") == [];
  }

  lemma RemoveTicksSuffix(s: string)
    ensures Replace(s + Fence, "`", "") == Replace(s, "`", "")
  {
    RemoveCharAround(s, "``", '`');
    assert s + "`" + "``" == s + Fence;
    RemoveCharAround([], "`", '`');
    assert [] + "`" + "`" == "``";
    RemoveCharAround([], [], '`');
    assert [] + "`" + [] == "`";
    assert Replace([], "`", "") == [];
  }

  // ------------------------------------------ clean_response, as it reads

  /** The first pattern of line 27 as the file reads: the two quote
      characters Python sees after `replace(` open a triple-quoted literal
      that runs to the next three quotes, so the pattern is this text. */
  const SwallowedPattern: string := ", '\"').replace("

  /** clean_response as the file reads: backticks go, the swallowed pattern
      becomes a straight quote, the apostrophe is replaced by itself, then
      trim and the two regex passes. */
  function CleanResponseAsWritten(text: string): (r: string)
    ensures '`' !in r && Trimmed(r)
  {
    var noTicks := Replace(text, "`", "");
    RemoveCharGone(text, '`');
    var a := Replace(noTicks, SwallowedPattern, "\"");
    ReplaceKeepsOut(noTicks, SwallowedPattern, "\"", '`');
    var b := Replace(a, "'", "'");
    ReplaceKeepsOut(a, "'", "'", '`');
    var t := Strip(b);
    StripKeepsOut(b, '`');
    LineFenceTagsNoTicks(t, true);
    TailFencesNoTicks(t);
    TailFences(LineFenceTags(t, true))
  }

  /** The regex passes leave the trimmed, backtick-free text as it is. */
  lemma CleanResponseAsWrittenIsStripped(text: string)
    ensures CleanResponseAsWritten(text)
         == Strip(Replace(Replace(Replace(text, "`", ""), SwallowedPattern, "\""), "'", "'"))
  {
    var noTicks := Replace(text, "`", "");
    RemoveCharGone(text, '`');
    var a := Replace(noTicks, SwallowedPattern, "\"");
    ReplaceKeepsOut(noTicks, SwallowedPattern, "\"", '`');
    var b := Replace(a, "'", "'");
    ReplaceKeepsOut(a, "'", "'", '`');
    StripKeepsOut(b, '`');
    LineFenceTagsNoTicks(Strip(b), true);
    TailFencesNoTicks(Strip(b));
  }

  /** A fenced reply, as the file reads: only the backticks of the fences
      go, so the language tag stays in front of the body, curly quotes and
      all (the regex passes find no fence left). */
  lemma CleanFencedResponse(tag: string, body: string)
    requires '`' !in tag && '`' !in body
    requires !Contains(tag, SwallowedPattern) && !Contains(body, SwallowedPattern)
    ensures CleanResponseAsWritten(Fence + tag + "\n" + body + "\n" + Fence) == Strip(tag + "\n" + body + "\n")
  {
    var s := Fence + tag + "\n" + body + "\n" + Fence;
    var m := tag + "\n" + body + "\n";
    assert s == Fence + (m + Fence);
    CleanResponseAsWrittenIsStripped(s);
    RemoveTicksPrefix(m + Fence);
    RemoveTicksSuffix(m);
    RemoveTicksNone(m);
    NotAcrossLines(tag, body, SwallowedPattern);
    ReplaceAbsent(m, SwallowedPattern, "\"");
    ReplaceSame(m, '\'');
  }

  /** The JSON object of a fenced reply is found behind its language tag. */
  lemma FencedObjectExtracted(tag: string, obj: string)
    requires Braced(obj) && '{' !in tag
    requires '`' !in tag && '`' !in obj
    requires !Contains(tag, SwallowedPattern) && !Contains(obj, SwallowedPattern)
    ensures ExtractObject(CleanResponseAsWritten(Fence + tag + "\n" + obj + "\n" + Fence)) == Some(obj)
  {
    CleanFencedResponse(tag, obj);
    assert tag + "\n" + obj + "\n" == (tag + "\n") + obj + "\n";
    ExtractStripped(tag + "\n", obj, "\n");
  }

  /** The sample reply "\u201cok\u201d" used below. */
  const CurlyQuoted: string := "\U{201C}ok\U{201D}"

  /** A reply quoted with curly quotes keeps them as written. */
  lemma CurlyQuotesKept()
    ensures CleanResponseAsWritten(CurlyQuoted) == CurlyQuoted
  {
    var s := CurlyQuoted;
    RemoveTicksNone(s);
    assert Replace(s, SwallowedPattern, "\"") == s;
    ReplaceAbsent(s, "'", "'") by {
      forall i | 0 <= i <= |s| ensures !OccursAt(s, "'", i) {
        if i < |s| {
          assert s[i..i + 1][0] == s[i];
        }
      }
    }
    StripOfTrimmed(s);
    CleanResponseAsWrittenIsStripped(s);
  }

  /** Replacing a one-character pattern, one character at a time. */
  lemma ReplaceCharStep(c: char, rest: string, pat: char, rep: string)
    ensures Replace([c] + rest, [pat], rep)
         == (if c == pat then rep else [c]) + Replace(rest, [pat], rep)
  {
    var s := [c] + rest;
    assert s[..1] == [c] && s[1..] == rest;
  }

  /** Straightening the sample reply, one replacement at a time. */
  lemma StraightenSample()
    ensures StraightenQuotes(CurlyQuoted) == "\"ok\""
  {
    StraightenLeft();
    StraightenRight();
    StraightenSingle();
  }

  lemma StraightenLeft()
    ensures Replace(CurlyQuoted, [LeftDoubleQuote], "\"") == "\"ok" + [RightDoubleQuote]
  {
    var e: string := [];
    assert Replace(e, [LeftDoubleQuote], "\"") == e;
    ReplaceCharStep(RightDoubleQuote, e, LeftDoubleQuote, "\"");
    ReplaceCharStep('k', [RightDoubleQuote], LeftDoubleQuote, "\"");
    ReplaceCharStep('o', "k" + [RightDoubleQuote], LeftDoubleQuote, "\"");
    ReplaceCharStep(LeftDoubleQuote, "ok" + [RightDoubleQuote], LeftDoubleQuote, "\"");
    assert [RightDoubleQuote] + e == [RightDoubleQuote];
    assert [LeftDoubleQuote] + ("ok" + [RightDoubleQuote]) == CurlyQuoted;
  }

  lemma StraightenRight()
    ensures Replace("\"ok" + [RightDoubleQuote], [RightDoubleQuote], "\"") == "\"ok\""
  {
    var e: string := [];
    assert Replace(e, [RightDoubleQuote], "\"") == e;
    ReplaceCharStep(RightDoubleQuote, e, RightDoubleQuote, "\"");
    ReplaceCharStep('k', [RightDoubleQuote], RightDoubleQuote, "\"");
    ReplaceCharStep('o', "k" + [RightDoubleQuote], RightDoubleQuote, "\"");
    ReplaceCharStep('"', "ok" + [RightDoubleQuote], RightDoubleQuote, "\"");
    assert ['"'] + ("ok" + [RightDoubleQuote]) == "\"ok" + [RightDoubleQuote];
  }

  lemma StraightenSingle()
    ensures Replace("\"ok\"", [RightSingleQuote], "'") == "\"ok\""
  {
    var e: string := [];
    assert Replace(e, [RightSingleQuote], "'") == e;
    ReplaceCharStep('"', e, RightSingleQuote, "'");
    ReplaceCharStep('k', "\"", RightSingleQuote, "'");
    ReplaceCharStep('o', "k\"", RightSingleQuote, "'");
    ReplaceCharStep('"', "ok\"", RightSingleQuote, "'");
  }

  /** The intended cleaning straightens the same reply. */
  lemma CurlyQuotesStraightened()
    ensures CleanResponse(CurlyQuoted) == "\"ok\""
  {
    RemoveTicksNone(CurlyQuoted);
    CleanResponseIsStripped(CurlyQuoted);
    StraightenSample();
    StripOfTrimmed("\"ok\"");
  }

  lemma RemoveTicksNone(s: string)
    requires '`' !in s
    ensures Replace(s, "`", "") == s
  {
    CharAbsent(s, '`');
    ReplaceAbsent(s, "`", "");
  }

  // -------------------------------------------- re.search(r"\{.*\}", DOTALL)

  /** re.search(r"\{.*\}", s, re.DOTALL).group(): from the first "{" to the
      last "}" after it, or None when no "}" follows the first "{". */
  function ExtractObject(s: string): (r: Option<string>)
    ensures r.Some? <==> exists i, j :: 0 <= i < j < |s| && s[i] == '{' && s[j] == '}'
    ensures r.Some? ==> |r.value| >= 2 && r.value[0] == '{' && r.value[|r.value| - 1] == '}'
  {
    var i := Find(s, '{');
    var j := RFind(s, '}');
    if i < j then Some(s[i..j + 1])
    else
      assert forall a, b :: 0 <= a < b < |s| && s[a] == '{' ==> s[b] != '}' by {
        forall a, b | 0 <= a < b < |s| && s[a] == '{' ensures s[b] != '}' {
          assert i <= a;
        }
      }
      None
  }

  /** The extracted span sits between a text free of "{" and a text free of
      "}", and it is exactly the text between them. */
  lemma ExtractObjectSplits(s: string) returns (pre: string, post: string)
    requires ExtractObject(s).Some?
    ensures s == pre + ExtractObject(s).value + post && '{' !in pre && '}' !in post
  {
    var i := Find(s, '{');
    var j := RFind(s, '}');
    assert ExtractObject(s).value == s[i..j + 1];
    pre, post := s[..i], s[j + 1..];
    assert s == pre + s[i..j + 1] + post;
    NotBeforeFind(s, '{');
    NotAfterRFind(s, '}');
  }

  /** A braced span between a "{"-free prefix and a "}"-free suffix is what
      comes back. */
  predicate Braced(obj: string)
  {
    |obj| >= 2 && obj[0] == '{' && obj[|obj| - 1] == '}'
  }

  lemma ExtractObjectOf(pre: string, obj: string, post: string)
    requires Braced(obj) && '{' !in pre && '}' !in post
    ensures ExtractObject(pre + obj + post) == Some(obj)
  {
    var s := pre + obj + post;
    var j := |pre| + |obj| - 1;
    assert s[|pre|] == '{' && s[j] == '}';
    forall k | 0 <= k < |pre| ensures s[k] != '{' {
      assert s[k] == pre[k];
    }
    forall k | j < k < |s| ensures s[k] != '}' {
      assert s[k] == post[k - j - 1];
    }
    assert Find(s, '{') == |pre|;
    assert RFind(s, '}') == j;
    assert s[|pre|..j + 1] == obj;
  }

  // ------------------------------------------------------- analyze_face_image

  /** What str() gives for the AttributeError of calling .group() on None. */
  const NoMatchMessage: string := "'NoneType' object has no attribute 'group'"

  /** Phase2Service.analyze_face_image, after the model call: `reply` is the
      reply text, or the message of the exception the call raised. The reply
      is cleaned as the file reads (curly quotes stay), the {...} span
      extracted and parsed; every failure becomes
      a 500 whose detail is "Gemini parsing error: " and the message. */
  function AnalyzeFaceImage(reply: Result<string, string>, codec: Codec): (r: Result<Value, Raised>)
    ensures r.Err? ==> r.error.HttpException? && r.error.status == 500
                       && StartsWith(r.error.detail, "Gemini parsing error: ")
    ensures r.Ok? <==> reply.Ok? && ExtractObject(CleanResponseAsWritten(reply.value)).Some?
                       && codec.loads(ExtractObject(CleanResponseAsWritten(reply.value)).value).Ok?
    ensures (reply.Ok? && ExtractObject(CleanResponseAsWritten(reply.value)).None?)
              ==> r == Err(HttpException(500, "Gemini parsing error: " + NoMatchMessage))
  {
    var message :=
      match reply
      case Err(e) => Err(e)
      case Ok(text) =>
        match ExtractObject(CleanResponseAsWritten(text))
        case None => Err(NoMatchMessage)
        case Some(span) => codec.loads(span);
    match message
    case Ok(v) => Ok(v)
    case Err(e) => Err(HttpException(500, "Gemini parsing error: " + e))
  }

  /** A fenced JSON reply is parsed from its braced object as it stands,
      curly quotes included. */
  lemma AnalyzeFencedReply(tag: string, obj: string, codec: Codec)
    requires Braced(obj) && '{' !in tag
    requires '`' !in tag && '`' !in obj
    requires !Contains(tag, SwallowedPattern) && !Contains(obj, SwallowedPattern)
    ensures AnalyzeFaceImage(Ok(Fence + tag + "\n" + obj + "\n" + Fence), codec)
         == match codec.loads(obj)
            case Ok(v) => Ok(v)
            case Err(e) => Err(HttpException(500, "Gemini parsing error: " + e))
  {
    FencedObjectExtracted(tag, obj);
  }
}
