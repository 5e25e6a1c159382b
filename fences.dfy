/** The markdown-fence stripper applied to the model's reply before it is
    parsed as JSON, shared by routine creation and budget allocation. */
module Fences {
  import opened Wrappers
  import opened Text

  const Fence: string := "```"

  /** The generative model: the reply text for a prompt, or None when the
      call (or reading the reply's text) raises. */
  type Model = string -> Option<string>

  /** Trim the reply; when it then opens with a fence, strip every backtick
      at both ends, trim again, and drop a leading "json" language tag
      (four characters) and the whitespace after it. */
  function StripJsonFence(reply: string): (r: string)
    ensures Trimmed(r)
    ensures !StartsWith(Strip(reply), Fence) ==> r == Strip(reply)
  {
    var raw := Strip(reply);
    if StartsWith(raw, Fence) then
      var inner := Strip(StripChar(raw, '`'));
      if StartsWith(inner, "json") then Strip(inner[4..]) else inner
    else raw
  }

  /** A JSON body as a fenced block would carry it: non-empty, trimmed, not
      itself starting or ending with a backtick, and not starting with the
      "json" tag. */
  predicate FenceableBody(body: string)
  {
    body != [] && Trimmed(body) && body[0] != '`' && body[|body| - 1] != '`'
    && !StartsWith(body, "json")
  }

  /** Stripping a backtick fence off "```" + m + "```" leaves m when m
      neither starts nor ends with a backtick. */
  lemma StripTicks(m: string)
    requires m != [] && m[0] != '`' && m[|m| - 1] != '`'
    ensures StripChar(Fence + m + Fence, '`') == m
  {
    StripExact(Fence, m, Fence, Is('`'));
  }

  /** A fenced text whose ends are backticks is already trimmed. */
  lemma FencedTrimmed(m: string)
    ensures Strip(Fence + m + Fence) == Fence + m + Fence
    ensures StartsWith(Fence + m + Fence, Fence)
  {
    var s := Fence + m + Fence;
    assert s[0] == '`' && s[|s| - 1] == '`';
    StripOfTrimmed(s);
    assert s[..3] == Fence;
  }

  lemma StripNewlineAfter(m: string)
    requires m != [] && !IsSpace(m[0]) && !IsSpace(m[|m| - 1])
    ensures Strip(m + "\n") == m
  {
    assert m + "\n" == [] + m + "\n";
    assert IsSpace("\n"[0]);
    StripExact([], m, "\n", IsSpace);
  }

  lemma StripNewlineBefore(m: string)
    requires m != [] && !IsSpace(m[0]) && !IsSpace(m[|m| - 1])
    ensures Strip("\n" + m) == m
  {
    assert "\n" + m == "\n" + m + [];
    assert IsSpace("\n"[0]);
    StripExact("\n", m, [], IsSpace);
  }

  /** Trimming "json\n" + body + "\n" and then dropping the tag and its
      whitespace leaves the body. */
  lemma DropJsonTag(body: string)
    requires body != [] && Trimmed(body)
    ensures Strip("json\n" + body + "\n") == "json\n" + body
    ensures StartsWith("json\n" + body, "json")
    ensures Strip(("json\n" + body)[4..]) == body
  {
    var m2 := "json\n" + body;
    assert m2[0] == 'j' && m2[|m2| - 1] == body[|body| - 1];
    StripNewlineAfter(m2);
    assert m2[..4] == "json";
    assert m2[4..] == "\n" + body;
    StripNewlineBefore(body);
  }

  /** A body wrapped in a ```json fence comes back unchanged. */
  lemma TaggedFenceRoundTrip(body: string)
    requires FenceableBody(body)
    ensures StripJsonFence("```json\n" + body + "\n```") == body
  {
    var m := "json\n" + body + "\n";
    assert "```json\n" + body + "\n```" == Fence + m + Fence;
    FencedTrimmed(m);
    StripTicks(m);
    DropJsonTag(body);
  }

  /** A body wrapped in an untagged ``` fence comes back unchanged. */
  lemma UntaggedFenceRoundTrip(body: string)
    requires FenceableBody(body)
    ensures StripJsonFence("```\n" + body + "\n```") == body
  {
    var m := "\n" + body + "\n";
    assert "```\n" + body + "\n```" == Fence + m + Fence;
    FencedTrimmed(m);
    StripTicks(m);
    StripExact("\n", body, "\n", IsSpace);
  }

  // ------------------------------------------------ removing fence markers

  /** How many characters after a "```" go with it: the run of ASCII letters
      when a language tag is removed too, none otherwise. */
  function TagLength(t: string, tagged: bool): (n: nat)
    ensures n <= |t|
  {
    if tagged then LeadingRun(t, IsAsciiLetter) else 0
  }

  /** Scan left to right and remove every "```" (with the letters right
      after it when `tagged`): re.sub(r"```[a-zA-Z]*", "", s) when tagged,
      s.replace("```", "") otherwise. */
  function RemoveFences(s: string, tagged: bool): string
    decreases |s|
  {
    if |s| < 3 then s
    else if s[..3] == Fence then RemoveFences(s[3 + TagLength(s[3..], tagged)..], tagged)
    else [s[0]] + RemoveFences(s[1..], tagged)
  }

  /** s.replace("```", "") is the untagged removal. */
  lemma {:induction false} ReplaceFenceIsRemoval(s: string)
    ensures Replace(s, Fence, []) == RemoveFences(s, false)
    decreases |s|
  {
    if |s| >= 3 {
      if s[..3] == Fence {
        ReplaceFenceIsRemoval(s[3..]);
      } else {
        ReplaceFenceIsRemoval(s[1..]);
      }
    }
  }

  predicate TwoTicks(s: string)
  {
    |s| >= 2 && s[0] == '`' && s[1] == '`'
  }

  /** A text not starting with a backtick keeps its first character. */
  lemma KeepsFirst(u: string, tagged: bool)
    requires u != [] && u[0] != '`'
    ensures RemoveFences(u, tagged) != [] && RemoveFences(u, tagged)[0] == u[0]
  {
    if |u| >= 3 {
      assert u[..3][0] == u[0];
    }
  }

  /** The removal never produces a leading backtick pair the input did not have. */
  lemma NoLeadingPair(t: string, tagged: bool)
    requires !TwoTicks(t)
    ensures !TwoTicks(RemoveFences(t, tagged))
  {
    if |t| >= 3 {
      if t[0] != '`' {
        KeepsFirst(t, tagged);
      } else {
        assert t[..3][1] == t[1];
        KeepsFirst(t[1..], tagged);
      }
    }
  }

  /** After the removal no "```" is left. */
  lemma {:induction false} RemoveFencesGone(s: string, tagged: bool)
    ensures !Contains(RemoveFences(s, tagged), Fence)
    decreases |s|
  {
    var r := RemoveFences(s, tagged);
    if |s| >= 3 {
      if s[..3] == Fence {
        RemoveFencesGone(s[3 + TagLength(s[3..], tagged)..], tagged);
      } else {
        var t := RemoveFences(s[1..], tagged);
        RemoveFencesGone(s[1..], tagged);
        assert r == [s[0]] + t;
        if s[0] == '`' {
          assert !TwoTicks(s[1..]) by {
            assert s[..3] == [s[0], s[1..][0], s[1..][1]];
          }
          NoLeadingPair(s[1..], tagged);
        }
        forall i | 0 <= i <= |r| ensures !OccursAt(r, Fence, i) {
          if 1 <= i && i + 3 <= |r| {
            assert r[i..i + 3] == t[i - 1..i + 2];
            assert !OccursAt(t, Fence, i - 1);
          } else if i == 0 && 3 <= |r| {
            assert r[1] == t[0] && r[2] == t[1];
            assert r[..3][1] == r[1] && r[..3][2] == r[2];
          }
        }
      }
    }
  }

  /** A text without backticks has nothing to remove. */
  lemma {:induction false} RemoveFencesNoTicks(s: string, tagged: bool)
    requires '`' !in s
    ensures RemoveFences(s, tagged) == s
    decreases |s|
  {
    if |s| >= 3 {
      assert s[..3][0] == s[0];
      RemoveFencesNoTicks(s[1..], tagged);
      assert s == [s[0]] + s[1..];
    }
  }

  /** Text without backticks in front of the rest passes through the removal. */
  lemma {:induction false} RemoveFencesPrefix(x: string, t: string, tagged: bool)
    requires '`' !in x
    ensures RemoveFences(x + t, tagged) == x + RemoveFences(t, tagged)
    decreases |x|
  {
    if x != [] {
      var s := x + t;
      assert s[0] == x[0];
      assert s[1..] == x[1..] + t;
      if |s| >= 3 {
        assert s[..3][0] == x[0];
      }
      RemoveFencesPrefix(x[1..], t, tagged);
      assert x == [x[0]] + x[1..];
    } else {
      assert x + t == t;
    }
  }

  /** A fence with its language tag in front of the rest goes, tag and all. */
  lemma RemoveTaggedFence(tag: string, t: string)
    requires forall i :: 0 <= i < |tag| ==> IsAsciiLetter(tag[i])
    requires t == [] || !IsAsciiLetter(t[0])
    ensures RemoveFences(Fence + tag + t, true) == RemoveFences(t, true)
  {
    TaggedFenceParts(tag, t);
    RemoveFenceAt(Fence + tag + t, true);
  }

  /** The pieces of "```" + tag + t: the fence, a tag as long as `tag`, and
      `t` after it. */
  lemma TaggedFenceParts(tag: string, t: string)
    requires forall i :: 0 <= i < |tag| ==> IsAsciiLetter(tag[i])
    requires t == [] || !IsAsciiLetter(t[0])
    ensures var s := Fence + tag + t;
      StartsWith(s, Fence) && TagLength(s[3..], true) == |tag| && s[3 + |tag|..] == t
  {
    var s := Fence + (tag + t);
    assert Fence + tag + t == s;
    assert s[..3] == Fence && s[3..] == tag + t;
    LeadingRunAppend(tag, t, IsAsciiLetter);
    assert LeadingRun(t, IsAsciiLetter) == 0;
    assert (tag + t)[|tag|..] == t;
    assert s[3 + |tag|..] == s[3..][|tag|..];
  }

  /** A text that starts with a fence loses it, and its tag. */
  lemma RemoveFenceAt(s: string, tagged: bool)
    requires StartsWith(s, Fence)
    ensures RemoveFences(s, tagged) == RemoveFences(s[3 + TagLength(s[3..], tagged)..], tagged)
  {
  }
}
