/** Budget tiers, reply cleaning, future categories and product enrichment
    (app/services/product_recommendation_service.py). The model's replies
    and float() are oracles; the product lookups go through the product
    search service. */
module ProductRecommendation {
  import opened Wrappers
  import opened Text
  import opened Json
  import opened Fences
  import opened Forms
  import opened ProductSearch

  // ------------------------------------------------------------ budget tiers

  /** Every category the service knows, in its fixed order. */
  const AllCategories: seq<string> := [
    "facial_wash", "moisturizer", "sunscreen", "treatment", "toner",
    "serum", "eye_cream", "exfoliant", "mask", "essence", "ampoule"]

  /** The categories a total budget allows: 3 under 15, 4 under 30, 6 under
      60, all 11 otherwise; always a prefix of the fixed order. */
  function TierCategories(budget: real): (cats: seq<string>)
    ensures budget < 15.0 ==> |cats| == 3
    ensures 15.0 <= budget < 30.0 ==> |cats| == 4
    ensures 30.0 <= budget < 60.0 ==> |cats| == 6
    ensures 60.0 <= budget ==> |cats| == 11
    ensures cats == AllCategories[..|cats|]
  {
    if budget < 15.0 then ["facial_wash", "moisturizer", "sunscreen"]
    else if budget < 30.0 then ["facial_wash", "moisturizer", "sunscreen", "treatment"]
    else if budget < 60.0 then ["facial_wash", "moisturizer", "sunscreen", "treatment", "toner", "serum"]
    else [
      "facial_wash", "moisturizer", "sunscreen", "treatment", "toner",
      "serum", "eye_cream", "exfoliant", "mask", "essence", "ampoule"]
  }

  /** A larger budget never loses a category: the smaller budget's list is a
      prefix of the larger one's. */
  lemma TierMonotone(low: real, high: real)
    requires low <= high
    ensures |TierCategories(low)| <= |TierCategories(high)|
    ensures TierCategories(low) == TierCategories(high)[..|TierCategories(low)|]
  {
    var a := TierCategories(low);
    var b := TierCategories(high);
    assert b[..|a|] == AllCategories[..|b|][..|a|];
  }

  /** The budget text as float() sees it: every "$" removed, then trimmed. */
  function CleanBudget(budget: string): (r: string)
    ensures '$' !in r && Trimmed(r)
  {
    var noDollar := Replace(budget, "$", "");
    RemoveCharGone(budget, '$');
    Strip(noDollar)
  }

  /** A leading dollar sign makes no difference: "$25" reads as "25". */
  lemma DollarIgnored(budget: string)
    ensures CleanBudget("$" + budget) == CleanBudget(budget)
  {
    RemoveCharAround([], budget, '$');
    assert [] + ['$'] + budget == "$" + budget;
    assert Replace([], "$", "") == [];
    assert [] + Replace(budget, "$", "") == Replace(budget, "$", "");
  }

  /** The prompt of get_budget_allocation for a list of allowed categories. */
  function BudgetPrompt(f: FormData, categories: seq<string>): string
  {
    BudgetIntro + Join(categories, ", ") + (BudgetProfile(f) + BudgetInstructions)
  }

  const BudgetIntro: string :=
    "\nYou are a skincare budget planning assistant. Based on the user's profile and skincare concerns, "
    + "allocate their total skincare budget into percentage per product category.\n\n"
    + "Only use from the following allowed categories (based on budget): "

  function BudgetProfile(f: FormData): string
  {
    "\n\nUser Profile:\n- Skin Type: " + SkinTypes(f)
    + "\n- Skin Conditions: " + Join(f.skinConditions, ", ")
    + "\n- Allergies: " + Join(f.allergies, ", ")
    + "\n- Product Experiences: " + ExperienceListRepr(f)
    + "\n- Goals: " + GoalsText(f)
    + "\n- Budget: " + f.budget
  }

  const BudgetInstructions: string :=
    "\n\nInstructions:\n"
    + "- Output a valid JSON object with keys as category names (e.g., facial_wash, moisturizer, sunscreen).\n"
    + "- The values must be raw numbers (not strings), and they must sum up to 100.\n"
    + "- Do NOT include notes, explanations, or markdown \U{2014} return pure JSON only.\n"

  /** Every allowed category is named in the budget prompt. */
  lemma BudgetPromptNamesCategories(f: FormData, categories: seq<string>, k: nat)
    requires k < |categories|
    ensures Contains(BudgetPrompt(f, categories), categories[k])
  {
    var joined := Join(categories, ", ");
    var prompt := BudgetPrompt(f, categories);
    JoinContains(categories, ", ", k);
    var i :| 0 <= i <= |joined| && OccursAt(joined, categories[k], i);
    OccursMiddle(BudgetIntro, joined, BudgetProfile(f) + BudgetInstructions);
    OccursTrans(prompt, joined, categories[k], |BudgetIntro|, i);
  }

  const BudgetFailure: string := "Failed to allocate budget"

  /** get_budget_allocation. The float conversion runs before the try, so a
      budget that does not read as a number raises its ValueError unchanged;
      a failing model call or an unparsable reply becomes a 500. */
  function GetBudgetAllocation(f: FormData, toFloat: string -> Option<real>, model: Model, codec: Codec)
    : (r: Result<Value, Raised>)
    ensures toFloat(CleanBudget(f.budget)).None? ==>
              r == Err(PyException("ValueError", "could not convert string to float: " + ReprStr(CleanBudget(f.budget))))
    ensures toFloat(CleanBudget(f.budget)).Some? ==>
              var prompt := BudgetPrompt(f, TierCategories(toFloat(CleanBudget(f.budget)).value));
              (r.Err? ==> r.error == HttpException(500, BudgetFailure))
              && (r.Ok? <==> model(prompt).Some? && codec.loads(StripJsonFence(model(prompt).value)).Ok?)
              && (r.Ok? ==> r.value == codec.loads(StripJsonFence(model(prompt).value)).value)
  {
    var cleaned := CleanBudget(f.budget);
    match toFloat(cleaned)
    case None => Err(PyException("ValueError", "could not convert string to float: " + ReprStr(cleaned)))
    case Some(amount) =>
      match model(BudgetPrompt(f, TierCategories(amount)))
      case None => Err(HttpException(500, BudgetFailure))
      case Some(reply) =>
        match codec.loads(StripJsonFence(reply))
        case Ok(v) => Ok(v)
        case Err(_) => Err(HttpException(500, BudgetFailure))
  }

  // ------------------------------------------------------- reply cleaning

  /** The index of the last of lines[lo..hi] that is "```" once trimmed, or
      |lines| when there is none. */
  function LastFenceLine(lines: seq<string>, lo: nat, hi: nat): (j: nat)
    requires hi <= |lines|
    ensures j == |lines| || (lo <= j < hi && Strip(lines[j]) == Fence)
    ensures forall k :: lo <= k < hi && (j == |lines| || j < k) ==> Strip(lines[k]) != Fence
    decreases hi
  {
    if hi <= lo then |lines|
    else if Strip(lines[hi - 1]) == Fence then hi - 1
    else LastFenceLine(lines, lo, hi - 1)
  }

  /** The backward scan for the closing fence over lines[lo..]: the source
      scans from the last line down to line 0 and stops at the first fence
      line it meets. */
  method FindClosingFence(lines: seq<string>, lo: nat) returns (jsonEnd: nat)
    requires lo <= |lines|
    ensures jsonEnd == LastFenceLine(lines, lo, |lines|)
    ensures lo <= jsonEnd <= |lines|
  {
    jsonEnd := |lines|;
    var i := |lines|;
    while i > lo
      invariant lo <= i <= |lines|
      invariant jsonEnd == |lines|
      invariant LastFenceLine(lines, lo, i) == LastFenceLine(lines, lo, |lines|)
      decreases i
    {
      if Strip(lines[i - 1]) == Fence {
        jsonEnd := i - 1;
        break;
      }
      i := i - 1;
    }
  }

  /** The first line is the opener when it starts with a fence. */
  function OpenerLines(lines: seq<string>): nat
  {
    if lines != [] && StartsWith(lines[0], Fence) then 1 else 0
  }

  /** The line-based fence cut: drop the opener line, cut at the last fence
      line after it (or keep everything when there is none), rejoin and
      trim. */
  function FenceBody(raw: string): string
  {
    var lines := Split(raw, '\n');
    var start := OpenerLines(lines);
    Strip(Join(lines[start..LastFenceLine(lines, start, |lines|)], "\n"))
  }

  /** The cut as the source writes it: the backward scan also looks at the
      opener line, so a reply whose opener is exactly "```" and that has no
      closing fence is cut at line 0, and lines[1:0] is empty. */
  function FenceBodyAsWritten(raw: string): string
  {
    var lines := Split(raw, '\n');
    var start := OpenerLines(lines);
    var end := LastFenceLine(lines, 0, |lines|);
    Strip(Join(if start <= end then lines[start..end] else [], "\n"))
  }

  /** The cleaning shared by the product and future recommendation calls:
      trim the reply; when it opens with a fence, take the line-based cut as
      the source writes it; then remove every "```json" and "```" and trim. */
  function CleanReplyText(reply: string): (r: string)
    ensures !Contains(r, Fence)
    ensures Trimmed(r)
  {
    var raw := Strip(reply);
    var cut := if StartsWith(raw, Fence) then FenceBodyAsWritten(raw) else raw;
    var removed := Replace(Replace(cut, "```json", []), Fence, []);
    ReplaceFenceIsRemoval(Replace(cut, "```json", []));
    RemoveFencesGone(Replace(cut, "```json", []), false);
    assert !Contains(Strip(removed), Fence) by {
      if Contains(Strip(removed), Fence) {
        StripContains(removed, Fence);
      }
    }
    Strip(removed)
  }

  /** The cleaning of the product and future recommendation replies, step by
      step as the source reassigns `raw`. */
  method CleanFencedReply(reply: string) returns (raw: string)
    ensures raw == CleanReplyText(reply)
    ensures !Contains(raw, Fence) && Trimmed(raw)
  {
    raw := Strip(reply);
    if StartsWith(raw, Fence) {
      var lines := Split(raw, '\n');
      var jsonStart := if StartsWith(lines[0], Fence) then 1 else 0;
      var jsonEnd := FindClosingFence(lines, 0);
      raw := Strip(Join(if jsonStart <= jsonEnd then lines[jsonStart..jsonEnd] else [], "\n"));
    }
    raw := Strip(Replace(Replace(raw, "```json", []), Fence, []));
  }

  /** Every line of a text occurs in it. */
  lemma SplitPieceOccurs(s: string, k: nat)
    requires k < |Split(s, '\n')|
    ensures Contains(s, Split(s, '\n')[k])
  {
    JoinSplit(s, '\n');
    JoinContains(Split(s, '\n'), "\n", k);
  }

  /** The lines of "```tag\n" + body + "\n```". */
  lemma FencedLines(tag: string, body: string)
    requires '\n' !in tag
    ensures Split(Fence + tag + "\n" + body + "\n" + Fence, '\n')
            == [Fence + tag] + Split(body, '\n') + [Fence]
  {
    var parts := [Fence + tag] + Split(body, '\n') + [Fence];
    JoinAppend([Fence + tag], Split(body, '\n'), "\n");
    JoinAppend([Fence + tag] + Split(body, '\n'), [Fence], "\n");
    JoinSplit(body, '\n');
    assert Join(parts, "\n") == Fence + tag + "\n" + body + "\n" + Fence;
    forall i | 0 <= i < |parts| ensures '\n' !in parts[i] {
      if 0 < i < |parts| - 1 {
        assert parts[i] == Split(body, '\n')[i - 1];
      }
    }
    SplitJoin(parts, '\n');
  }

  /** A body without backticks has no line that trims to a fence. */
  lemma NoFenceLine(body: string, k: nat)
    requires '`' !in body && k < |Split(body, '\n')|
    ensures Strip(Split(body, '\n')[k]) != Fence
  {
    var line := Split(body, '\n')[k];
    SplitPieceOccurs(body, k);
    var i :| 0 <= i <= |body| && OccursAt(body, line, i);
    forall m | 0 <= m < |line| ensures line[m] != '`' {
      assert line[m] == body[i + m];
    }
    var st := Strip(line);
    forall m | 0 <= m < |st| ensures st[m] != '`' {
      assert st[m] == line[LeadingRun(line, IsSpace) + m];
    }
    if |st| == 3 {
      assert st[0] != Fence[0];
    }
  }

  /** A backtick-free text holds no backtick pattern, so removing the fence
      markers leaves it alone. */
  lemma NoTicksNoMarkers(s: string, pat: string)
    requires '`' !in s && pat != [] && pat[0] == '`'
    ensures Replace(s, pat, []) == s
  {
    forall i | 0 <= i <= |s| ensures !OccursAt(s, pat, i) {
      if i + |pat| <= |s| {
        assert s[i..i + |pat|][0] == s[i];
      }
    }
    ReplaceAbsent(s, pat, []);
  }

  /** A body without backticks, fenced as "```tag" ... "```", cleans back to
      the trimmed body. */
  lemma FencedReplyRoundTrip(tag: string, body: string)
    requires '\n' !in tag && '`' !in body
    ensures CleanReplyText(Fence + tag + "\n" + body + "\n" + Fence) == Strip(body)
  {
    var reply := Fence + tag + "\n" + body + "\n" + Fence;
    assert reply[0] == '`' && reply[|reply| - 1] == '`';
    StripOfTrimmed(reply);
    assert reply[..3] == Fence;
    FencedCut(tag, body);
    var cut := Strip(body);
    assert '`' !in cut by {
      forall k | 0 <= k < |cut| ensures cut[k] != '`' {
        assert cut[k] == body[LeadingRun(body, IsSpace) + k];
      }
    }
    NoTicksNoMarkers(cut, "```json");
    NoTicksNoMarkers(cut, Fence);
    StripOfTrimmed(cut);
  }

  /** The line-based cut of a fenced, backtick-free body is the trimmed
      body, both as the source writes it and as corrected: with a closing
      fence the two scans stop at the same line. */
  lemma FencedCut(tag: string, body: string)
    requires '\n' !in tag && '`' !in body
    ensures FenceBody(Fence + tag + "\n" + body + "\n" + Fence) == Strip(body)
    ensures FenceBodyAsWritten(Fence + tag + "\n" + body + "\n" + Fence) == Strip(body)
  {
    FencedLines(tag, body);
    var lines := Split(Fence + tag + "\n" + body + "\n" + Fence, '\n');
    var inner := Split(body, '\n');
    assert lines[0][..3] == Fence;
    assert OpenerLines(lines) == 1;
    StripOfTrimmed(Fence);
    assert LastFenceLine(lines, 1, |lines|) == |lines| - 1;
    assert LastFenceLine(lines, 0, |lines|) == |lines| - 1;
    assert lines[1..|lines| - 1] == inner;
    JoinSplit(body, '\n');
  }

  /** The regex search for "[" ... "]" (shortest match, newlines included)
      applied when the cleaned text is not itself bracketed: the span from
      the first "[" to the first "]" after it. */
  function ExtractBracketed(raw: string): (r: string)
    ensures StartsWith(raw, "[") && EndsWith(raw, "]") ==> r == raw
  {
    if StartsWith(raw, "[") && EndsWith(raw, "]") then raw
    else match BracketSpan(raw)
      case Some(span) => span
      case None => raw
  }

  /** The regex match itself: from the first "[" to the first "]" after it,
      when there is one. */
  function BracketSpan(raw: string): Option<string>
  {
    var i := Find(raw, '[');
    if i == |raw| then None
    else
      var rest := raw[i + 1..];
      var j := Find(rest, ']');
      if j == |rest| then None
      else Some(raw[i..i + j + 2])
  }

  /** The search succeeds exactly when a "]" follows the first "[". */
  lemma BracketSpanFound(raw: string)
    ensures BracketSpan(raw).Some? <==> '[' in raw && ']' in raw[Find(raw, '[') + 1..]
  {
    FindIn(raw, '[');
    if Find(raw, '[') < |raw| {
      FindIn(raw[Find(raw, '[') + 1..], ']');
    }
  }

  /** The match is bracketed, holds no other "]", and starts at the first
      "[". */
  lemma BracketSpanShape(raw: string)
    requires BracketSpan(raw).Some?
    ensures var span := BracketSpan(raw).value;
      && |span| >= 2 && span[0] == '[' && span[|span| - 1] == ']'
      && ']' !in span[1..|span| - 1] && OccursAt(raw, span, Find(raw, '['))
  {
    var i := Find(raw, '[');
    var rest := raw[i + 1..];
    var j := Find(rest, ']');
    var span := raw[i..i + j + 2];
    SliceParts(raw, i, j);
    assert span[1..|span| - 1] == rest[..j];
    assert ']' !in rest[..j] by {
      forall m | 0 <= m < j ensures rest[..j][m] != ']' {
        assert rest[..j][m] == rest[m];
      }
    }
  }

  /** Unless the text is itself bracketed, the extraction changes it exactly
      when the search succeeds, and then yields the match. */
  lemma ExtractBracketedShape(raw: string)
    requires !(StartsWith(raw, "[") && EndsWith(raw, "]"))
    ensures ExtractBracketed(raw) != raw <==> BracketSpan(raw).Some?
  {
    var m := BracketSpan(raw);
    if m.Some? {
      BracketSpanShape(raw);
      var span := m.value;
      assert span != raw by {
        assert StartsWith(span, "[") by { assert span[..1] == [span[0]]; }
        assert EndsWith(span, "]") by { assert span[|span| - 1..] == [span[|span| - 1]]; }
      }
    }
  }

  /** A slice of length j + 2 is its first character, the j after it and
      its last character. */
  lemma SliceParts(s: string, i: nat, j: nat)
    requires i + j + 2 <= |s|
    ensures s[i..i + j + 2] == [s[i]] + s[i + 1..][..j] + [s[i + j + 1]]
  {
  }

  /** The first c in pre + [c] + rest is the one after pre when pre has none. */
  lemma FindAfter(pre: string, c: char, rest: string)
    requires c !in pre
    ensures Find(pre + ([c] + rest), c) == |pre|
  {
    var s := pre + ([c] + rest);
    assert s[|pre|] == c;
    assert forall k :: 0 <= k < |pre| ==> s[k] == pre[k];
  }

  /** A bracketed span after bracket-free text is what the search finds. */
  lemma ExtractSurrounded(pre: string, body: string, post: string)
    requires '[' !in pre && ']' !in body
    requires pre != [] || post == [] || post[|post| - 1] != ']'
    ensures ExtractBracketed(pre + "[" + body + "]" + post) == "[" + body + "]"
  {
    var raw := pre + "[" + body + "]" + post;
    if pre == [] && post == [] {
      assert raw == "[" + body + "]";
      assert raw[..1] == "[" && raw[|raw| - 1..] == "]";
    } else {
      SurroundedSpan(pre, body, post);
      ExtractAt(raw, |pre|, |body|);
    }
  }

  /** Where the search lands in pre + "[" + body + "]" + post, and that this
      text is not itself bracketed. */
  lemma SurroundedSpan(pre: string, body: string, post: string)
    requires '[' !in pre && ']' !in body
    requires pre != [] || post != []
    requires pre != [] || post == [] || post[|post| - 1] != ']'
    ensures var raw := pre + "[" + body + "]" + post;
      && Find(raw, '[') == |pre|
      && Find(raw[|pre| + 1..], ']') == |body| < |raw[|pre| + 1..]|
      && raw[|pre|..|pre| + |body| + 2] == "[" + body + "]"
      && !(StartsWith(raw, "[") && EndsWith(raw, "]"))
  {
    var raw := pre + "[" + body + "]" + post;
    var rest := body + ([']'] + post);
    assert raw == pre + (['['] + rest) && raw[|pre| + 1..] == rest;
    assert Find(raw, '[') == |pre| by {
      FindAfter(pre, '[', rest);
    }
    assert Find(rest, ']') == |body| < |rest| by {
      FindAfter(body, ']', post);
    }
    assert !(StartsWith(raw, "[") && EndsWith(raw, "]")) by {
      if pre != [] {
        assert raw[0] == pre[0];
      } else {
        assert raw[|raw| - 1] == post[|post| - 1];
      }
    }
    assert raw[|pre|..|pre| + |body| + 2] == "[" + body + "]" by {
      SliceParts(raw, |pre|, |body|);
      assert rest[..|body|] == body;
      assert raw[|pre|] == '[' && raw[|pre| + |body| + 1] == rest[|body|] == ']';
    }
  }

  /** When the text is not itself bracketed, the extraction is the span
      from the first "[" to the first "]" after it. */
  lemma ExtractAt(raw: string, i: nat, j: nat)
    requires i < |raw| && Find(raw, '[') == i
    requires j < |raw[i + 1..]| && Find(raw[i + 1..], ']') == j
    requires !(StartsWith(raw, "[") && EndsWith(raw, "]"))
    ensures ExtractBracketed(raw) == raw[i..i + j + 2]
  {
  }

  /** The text a product-recommendation reply is parsed from. */
  function RecommendationText(reply: string): string
  {
    ExtractBracketed(CleanReplyText(reply))
  }

  function RecommendationFailure(category: string): string
  {
    "Failed to get " + category + " recommendations"
  }

  /** get_product_recommendations, from the model's reply (None when the
      call or reading its text raises). */
  method GetProductRecommendations(category: string, reply: Option<string>, codec: Codec)
    returns (r: Result<Value, Raised>)
    ensures r.Err? ==> r.error == HttpException(500, RecommendationFailure(category))
    ensures r.Ok? <==> reply.Some? && codec.loads(RecommendationText(reply.value)).Ok?
    ensures r.Ok? ==> r.value == codec.loads(RecommendationText(reply.value)).value
  {
    if reply.None? {
      return Err(HttpException(500, RecommendationFailure(category)));
    }
    var raw := CleanFencedReply(reply.value);
    if !(StartsWith(raw, "[") && EndsWith(raw, "]")) {
      raw := ExtractBracketed(raw);
    }
    match codec.loads(raw)
    case Ok(v) => return Ok(v);
    case Err(_) => return Err(HttpException(500, RecommendationFailure(category)));
  }

  /** An opener that is exactly "```" with no closing fence: the source's
      cut loses the whole body, the corrected cut keeps it. */
  lemma UnclosedFenceLost(body: string)
    requires '\n' !in body && '`' !in body && Strip(body) != []
    ensures FenceBodyAsWritten(Fence + "\n" + body) == []
    ensures FenceBody(Fence + "\n" + body) == Strip(body)
  {
    var lines := Split(Fence + "\n" + body, '\n');
    UnclosedLines(body);
    assert StartsWith(lines[0], Fence);
    StripOfTrimmed(Fence);
    assert LastFenceLine(lines, 1, 2) == 2;
    assert LastFenceLine(lines, 0, 2) == 0;
    assert lines[1..2] == [body];
    assert Join([body], "\n") == body;
  }

  /** As the source writes it, a trimmed reply that opens with a bare fence
      and never closes it cleans to the empty text, so the product and future
      recommendation calls parse "" and fail with their 500. */
  lemma UnclosedFenceCleansEmpty(body: string)
    requires '\n' !in body && '`' !in body && body != [] && Trimmed(body)
    ensures CleanReplyText(Fence + "\n" + body) == []
    ensures RecommendationText(Fence + "\n" + body) == []
  {
    var reply := Fence + "\n" + body;
    assert reply[0] == '`' && reply[|reply| - 1] == body[|body| - 1];
    StripOfTrimmed(reply);
    assert reply[..3] == Fence;
    StripOfTrimmed(body);
    UnclosedFenceLost(body);
    ReplaceAbsent([], "```json", []);
    ReplaceAbsent([], Fence, []);
    StripOfTrimmed([]);
  }

  /** The lines of an opener followed by one fence-free line. */
  lemma UnclosedLines(body: string)
    requires '\n' !in body && '`' !in body
    ensures Split(Fence + "\n" + body, '\n') == [Fence, body]
    ensures Strip(body) != Fence
  {
    var parts := [Fence, body];
    assert Join(parts, "\n") == Fence + "\n" + body by {
      assert Join(parts[1..], "\n") == body;
    }
    SplitJoin(parts, '\n');
    assert Split(body, '\n') == [body] by {
      assert Join([body], "\n") == body;
      SplitJoin([body], '\n');
    }
    NoFenceLine(body, 0);
  }

  // --------------------------------------------------- future categories

  /** The categories of the fixed list that are not current, in the fixed order. */
  function Remaining(cats: seq<string>, current: seq<string>): (r: seq<string>)
    ensures forall c :: c in r <==> c in cats && c !in current
    ensures |r| <= |cats|
  {
    if cats == [] then []
    else (if cats[0] in current then [] else [cats[0]]) + Remaining(cats[1..], current)
  }

  /** The future categories of get_future_recommendations. */
  function FutureCategories(current: seq<string>): (r: seq<string>)
    ensures forall c :: c in r <==> c in AllCategories && c !in current
  {
    Remaining(AllCategories, current)
  }

  predicate DistinctStrings(xs: seq<string>)
  {
    forall i, j :: 0 <= i < j < |xs| ==> xs[i] != xs[j]
  }

  /** With distinct entries, the categories left after a prefix are the suffix. */
  lemma {:induction false} RemainingAfterPrefix(xs: seq<string>, n: nat, k: nat)
    requires DistinctStrings(xs) && n <= |xs| && k <= |xs|
    ensures Remaining(xs[k..], xs[..n]) == if k < n then xs[n..] else xs[k..]
    decreases |xs| - k
  {
    if k < |xs| {
      RemainingAfterPrefix(xs, n, k + 1);
      assert xs[k..][1..] == xs[k + 1..];
      assert xs[k..][0] == xs[k];
      if k < n {
        assert xs[k] in xs[..n] by { assert xs[..n][k] == xs[k]; }
        if k + 1 == n {
          assert xs[k + 1..] == xs[n..];
        }
      } else {
        assert xs[k] !in xs[..n] by {
          forall m | 0 <= m < n ensures xs[..n][m] != xs[k] {
            assert xs[..n][m] == xs[m];
          }
        }
        assert xs[k..] == [xs[k]] + xs[k + 1..];
      }
    }
  }

  /** A tier's future categories are exactly the categories after it. */
  lemma FutureOfTier(budget: real)
    ensures FutureCategories(TierCategories(budget)) == AllCategories[|TierCategories(budget)|..]
  {
    var n := |TierCategories(budget)|;
    AllCategoriesDistinct();
    RemainingAfterPrefix(AllCategories, n, 0);
    assert AllCategories[0..] == AllCategories;
  }

  lemma AllCategoriesDistinct()
    ensures DistinctStrings(AllCategories)
  {
  }

  const FutureFailure: string := "Failed to generate future recommendations"

  /** get_future_recommendations, from the model's reply. With no future
      category left the answer is an empty list and the reply is not
      consulted (the model is not called). */
  method GetFutureRecommendations(current: seq<string>, reply: Option<string>, codec: Codec)
    returns (r: Result<Value, Raised>)
    ensures FutureCategories(current) == [] ==> r == Ok(Arr([]))
    ensures FutureCategories(current) != [] ==>
              (r.Err? ==> r.error == HttpException(500, FutureFailure))
              && (r.Ok? <==> reply.Some? && codec.loads(CleanReplyText(reply.value)).Ok?)
              && (r.Ok? ==> r.value == codec.loads(CleanReplyText(reply.value)).value)
  {
    if FutureCategories(current) == [] {
      return Ok(Arr([]));
    }
    if reply.None? {
      return Err(HttpException(500, FutureFailure));
    }
    var raw := CleanFencedReply(reply.value);
    match codec.loads(raw)
    case Ok(v) => return Ok(v);
    case Err(_) => return Err(HttpException(500, FutureFailure));
  }

  // ------------------------------------------------------------ enrichment

  /** `product.get("name", "")` is truthy; only dicts have .get. */
  predicate IsNamed(product: Value)
  {
    product.Obj? && Truthy(GetOr(product.entries, "name", Str("")))
  }

  /** The products of a list that the enrichment looks up, in order. */
  function NamedProducts(items: seq<Value>): (named: seq<Value>)
    ensures |named| <= |items|
    ensures forall m :: 0 <= m < |named| ==> IsNamed(named[m]) && named[m] in items
  {
    if items == [] then []
    else
      var last := items[|items| - 1];
      NamedProducts(items[..|items| - 1]) + if IsNamed(last) then [last] else []
  }

  /** The entry the enrichment builds for one product, from the lookup result. */
  function EnrichedProduct(product: Value, category: string, details: Option<Entries>): Value
  {
    if details.Some? && details.value != [] then
      Obj([("ai_recommendation", product), ("product_details", Obj(details.value)),
           ("category", Str(category)), ("enriched_at", GetOr(details.value, "fetched_at", Null)),
           ("search_successful", Bool(true))])
    else
      Obj([("ai_recommendation", product), ("product_details", Null), ("category", Str(category)),
           ("search_successful", Bool(false)), ("error", Str("Product details not found"))])
  }

  /** What every enriched entry says: the original recommendation, its
      category, and search_successful exactly when details were found. */
  lemma EnrichedProductFields(product: Value, category: string, details: Option<Entries>)
    ensures var e := EnrichedProduct(product, category, details).entries;
      Get(e, "ai_recommendation") == Some(product)
      && Get(e, "category") == Some(Str(category))
      && (Get(e, "search_successful") == Some(Bool(true)) <==> details.Some? && details.value != [])
      && (Get(e, "search_successful") == Some(Bool(true)) ==> Get(e, "product_details") == Some(Obj(details.value)))
      && (Get(e, "search_successful") == Some(Bool(false)) <==> Get(e, "product_details") == Some(Null))
  {
    var e := EnrichedProduct(product, category, details).entries;
    LeadingFields(e, product, category);
    if details.Some? && details.value != [] {
      assert e[4] == ("search_successful", Bool(true));
      FifthField(e);
    } else {
      assert e[3] == ("search_successful", Bool(false));
      FourthField(e);
    }
  }

  lemma LeadingFields(e: Entries, product: Value, category: string)
    requires |e| == 5 && e[0] == ("ai_recommendation", product) && e[1].0 == "product_details"
    requires e[2] == ("category", Str(category))
    ensures Get(e, "ai_recommendation") == Some(product)
    ensures Get(e, "product_details") == Some(e[1].1)
    ensures Get(e, "category") == Some(Str(category))
  {
    assert Get(e, "product_details") == Get(e[1..], "product_details");
    assert Get(e, "category") == Get(e[1..], "category") == Get(e[2..], "category");
  }

  lemma FourthField(e: Entries)
    requires |e| == 5 && e[0].0 == "ai_recommendation" && e[1].0 == "product_details"
    requires e[2].0 == "category" && e[3].0 == "search_successful"
    ensures Get(e, "search_successful") == Some(e[3].1)
  {
    assert Get(e, "search_successful") == Get(e[1..], "search_successful") == Get(e[2..], "search_successful");
    assert Get(e[2..], "search_successful") == Get(e[3..], "search_successful");
  }

  lemma FifthField(e: Entries)
    requires |e| == 5 && e[0].0 == "ai_recommendation" && e[1].0 == "product_details"
    requires e[2].0 == "category" && e[3].0 == "enriched_at" && e[4].0 == "search_successful"
    ensures Get(e, "search_successful") == Some(e[4].1)
  {
    assert Get(e, "search_successful") == Get(e[1..], "search_successful") == Get(e[2..], "search_successful");
    assert Get(e[2..], "search_successful") == Get(e[3..], "search_successful") == Get(e[4..], "search_successful");
  }

  /** An entry the enrichment may build for the product, whatever the lookup gave. */
  predicate IsEnrichmentOf(entry: Value, product: Value, category: string)
  {
    entry == EnrichedProduct(product, category, None)
    || (entry.Obj? && |entry.entries| == 5 && entry.entries[1].1.Obj? && entry.entries[1].1.entries != []
        && entry == EnrichedProduct(product, category, Some(entry.entries[1].1.entries)))
  }

  /** Every entry the enrichment builds is an enrichment of its product. */
  lemma EnrichedIsEnrichment(product: Value, category: string, details: Option<Entries>)
    ensures IsEnrichmentOf(EnrichedProduct(product, category, details), product, category)
  {
    if details.Some? && details.value != [] {
      var entry := EnrichedProduct(product, category, details);
      assert entry.entries[1].1 == Obj(details.value);
    }
  }

  /** Extending the list by one product extends the named products by it
      when it is named. */
  lemma NamedSnoc(items: seq<Value>, j: nat)
    requires j < |items|
    ensures NamedProducts(items[..j + 1]) == NamedProducts(items[..j]) + if IsNamed(items[j]) then [items[j]] else []
  {
    assert items[..j + 1][..j] == items[..j];
  }

  /** The enriched list grows with the named products. */
  lemma EnrichedItemsSnoc(items: seq<Value>, j: nat, category: string, enriched: seq<Value>, entry: Value)
    requires j < |items| && EnrichedItems(items[..j], category, enriched)
    requires IsNamed(items[j]) ==> IsEnrichmentOf(entry, items[j], category)
    ensures IsNamed(items[j]) ==> EnrichedItems(items[..j + 1], category, enriched + [entry])
    ensures !IsNamed(items[j]) ==> EnrichedItems(items[..j + 1], category, enriched)
  {
    NamedSnoc(items, j);
  }

  /** The list of one category can be enriched: it is iterable and every
      item is a dict (anything else has no .get). */
  predicate EnrichableList(list: Value)
  {
    Iterate(list).Some? && forall m :: 0 <= m < |Iterate(list).value| ==> Iterate(list).value[m].Obj?
  }

  predicate Enrichable(products: Entries)
  {
    forall i :: 0 <= i < |products| ==> EnrichableList(products[i].1)
  }

  /** One enriched category list: one entry per named product, in order. */
  predicate EnrichedItems(items: seq<Value>, category: string, enriched: seq<Value>)
  {
    var named := NamedProducts(items);
    |enriched| == |named|
    && forall m :: 0 <= m < |named| ==> IsEnrichmentOf(enriched[m], named[m], category)
  }

  predicate EnrichedList(list: Value, category: string, enriched: seq<Value>)
    requires Iterate(list).Some?
  {
    EnrichedItems(Iterate(list).value, category, enriched)
  }

  /** The fallback after any failure inside the loop: every product of every
      category, unlooked-up; a list that is not iterable makes the fallback
      raise as well. */
  function FallbackProducts(products: Entries): (r: Result<Value, Raised>)
    ensures r.Ok? <==> forall i :: 0 <= i < |products| ==> Iterate(products[i].1).Some?
    ensures r.Ok? ==> r.value.Obj? && Keys(r.value.entries) == Keys(products)
  {
    match FallbackEntries(products)
    case Ok(entries) => Ok(Obj(entries))
    case Err(e) => Err(e)
  }

  function FallbackEntries(products: Entries): (r: Result<Entries, Raised>)
    ensures r.Ok? <==> forall i :: 0 <= i < |products| ==> Iterate(products[i].1).Some?
    ensures r.Ok? ==> Keys(r.value) == Keys(products)
  {
    if products == [] then Ok([])
    else match Iterate(products[0].1)
      case None => Err(PyException("TypeError", "'" + TypeName(products[0].1) + "' object is not iterable"))
      case Some(items) =>
        match FallbackEntries(products[1..])
        case Err(e) => Err(e)
        case Ok(rest) =>
          var unlooked := seq(|items|, m requires 0 <= m < |items| =>
            Obj([("ai_recommendation", items[m]), ("product_details", Null), ("search_successful", Bool(false))]));
          assert Keys(products) == [products[0].0] + Keys(products[1..]);
          assert forall i :: 1 <= i < |products| ==> products[1..][i - 1] == products[i];
          Ok([(products[0].0, Arr(unlooked))] + rest)
  }

  // ------------------------------------------------ enrichment lookups

  /** `product.get("name", "")`: the query a product is looked up by. */
  function ProductName(product: Value): Value
  {
    if product.Obj? then GetOr(product.entries, "name", Str("")) else Str("")
  }

  /** The recommendation context saved with a looked-up product. */
  function LookupContext(product: Value, category: string, userContext: Value): Value
  {
    var price := if product.Obj? then GetOr(product.entries, "price", Str("$0.00")) else Str("$0.00");
    Obj([("category", Str(category)), ("recommended_price", price),
         ("user_context", userContext), ("ai_recommended", Bool(true))])
  }

  /** One call of get_or_fetch_product made by the enrichment: a named
      product and the category it was recommended for. */
  datatype Lookup = Lookup(product: Value, category: string)

  /** The lookups made for one category's products: one per named product,
      in order. */
  function Lookups(items: seq<Value>, category: string): (r: seq<Lookup>)
    ensures |r| == |NamedProducts(items)|
  {
    var named := NamedProducts(items);
    seq(|named|, m requires 0 <= m < |named| => Lookup(named[m], category))
  }

  /** The number of leading dicts in a list: the inner loop stops at the
      first item that is not a dict. */
  function DictPrefix(items: seq<Value>): (k: nat)
    ensures k <= |items| && (forall m :: 0 <= m < k ==> items[m].Obj?)
    ensures k < |items| ==> !items[k].Obj?
  {
    if items == [] || !items[0].Obj? then 0
    else
      var k := DictPrefix(items[1..]);
      assert forall m :: 1 <= m < k + 1 ==> items[m] == items[1..][m - 1];
      k + 1
  }

  /** The two collections the lookups write: products_cache and
      user_recommended_products, by _id. */
  datatype Store = Store(cache: map<string, Entries>, userProducts: map<string, Entries>)

  /** One get_or_fetch_product call of the enrichment, from the store before
      it to the store after it: it found what the cache before it or the
      fetch gives, the cache saved a fetched record on a miss, and the user
      collection recorded the product found for the session. */
  predicate LookupStep(before: Store, after: Store, x: Lookup, d: Option<Entries>,
                       sessionId: string, userContext: Value, serp: SerpApi, now: int)
  {
    var q := ProductName(x.product);
    LookupResult(before.cache, q, serp, d)
    && after.cache == CacheAfterLookup(before.cache, q, serp, now)
    && after.userProducts
       == UsersAfterLookup(before.userProducts, Some(sessionId), d, LookupContext(x.product, x.category, userContext), now)
  }

  /** The stores a run of lookups passes through, one lookup after the
      other; found[m] is what lookup m returned. */
  predicate Trace(trace: seq<Store>, lookups: seq<Lookup>, found: seq<Option<Entries>>,
                  sessionId: string, userContext: Value, serp: SerpApi, now: int)
  {
    |trace| == |lookups| + 1 && |found| == |lookups|
    && forall m {:trigger LookupStep(trace[m], trace[m + 1], lookups[m], found[m], sessionId, userContext, serp, now)} ::
         0 <= m < |lookups| ==>
         LookupStep(trace[m], trace[m + 1], lookups[m], found[m], sessionId, userContext, serp, now)
  }

  /** The entries built from the lookups and what they found. */
  function EnrichedOf(lookups: seq<Lookup>, found: seq<Option<Entries>>): (r: seq<Value>)
    requires |found| == |lookups|
    ensures |r| == |lookups|
  {
    seq(|lookups|, m requires 0 <= m < |lookups| => EnrichedProduct(lookups[m].product, lookups[m].category, found[m]))
  }

  /** One more lookup extends the trace, the results and the entries. */
  lemma TraceSnoc(trace: seq<Store>, lookups: seq<Lookup>, found: seq<Option<Entries>>, x: Lookup, d: Option<Entries>,
                  after: Store, sessionId: string, userContext: Value, serp: SerpApi, now: int)
    requires Trace(trace, lookups, found, sessionId, userContext, serp, now)
    requires LookupStep(trace[|trace| - 1], after, x, d, sessionId, userContext, serp, now)
    ensures Trace(trace + [after], lookups + [x], found + [d], sessionId, userContext, serp, now)
    ensures EnrichedOf(lookups + [x], found + [d]) == EnrichedOf(lookups, found) + [EnrichedProduct(x.product, x.category, d)]
  {
    var t, l, f := trace + [after], lookups + [x], found + [d];
    forall m | 0 <= m < |l|
      ensures LookupStep(t[m], t[m + 1], l[m], f[m], sessionId, userContext, serp, now)
    {
      if m < |lookups| {
        assert t[m] == trace[m] && t[m + 1] == trace[m + 1] && l[m] == lookups[m] && f[m] == found[m];
      } else {
        assert t[m] == trace[|trace| - 1] && t[m + 1] == after && l[m] == x && f[m] == d;
      }
    }
  }

  /** Two runs of lookups, the second starting where the first ended, make
      one run. */
  lemma TraceAppend(t1: seq<Store>, l1: seq<Lookup>, f1: seq<Option<Entries>>,
                    t2: seq<Store>, l2: seq<Lookup>, f2: seq<Option<Entries>>,
                    sessionId: string, userContext: Value, serp: SerpApi, now: int)
    requires Trace(t1, l1, f1, sessionId, userContext, serp, now)
    requires Trace(t2, l2, f2, sessionId, userContext, serp, now)
    requires t2[0] == t1[|t1| - 1]
    ensures Trace(t1 + t2[1..], l1 + l2, f1 + f2, sessionId, userContext, serp, now)
    ensures (t1 + t2[1..])[0] == t1[0] && (t1 + t2[1..])[|t1| + |t2| - 2] == t2[|t2| - 1]
  {
    var t, l, f := t1 + t2[1..], l1 + l2, f1 + f2;
    forall m | 0 <= m < |l|
      ensures LookupStep(t[m], t[m + 1], l[m], f[m], sessionId, userContext, serp, now)
    {
      if m < |l1| {
        assert t[m] == t1[m] && t[m + 1] == t1[m + 1] && l[m] == l1[m] && f[m] == f1[m];
        assert LookupStep(t1[m], t1[m + 1], l1[m], f1[m], sessionId, userContext, serp, now);
      } else {
        var k := m - |l1|;
        assert t[m + 1] == t2[k + 1] && l[m] == l2[k] && f[m] == f2[k];
        if k == 0 {
          assert t[m] == t1[|t1| - 1];
        } else {
          assert t[m] == t2[k];
        }
        assert LookupStep(t2[k], t2[k + 1], l2[k], f2[k], sessionId, userContext, serp, now);
      }
    }
  }

  /** The named products of a list grow by its next item when that is named. */
  lemma LookupsSnoc(items: seq<Value>, j: nat, category: string)
    requires j < |items|
    ensures Lookups(items[..j + 1], category)
            == Lookups(items[..j], category) + if IsNamed(items[j]) then [Lookup(items[j], category)] else []
  {
    NamedSnoc(items, j);
  }

  /** The inner loop over one category's products. Each named product is
      looked up in turn, and the trace records the store after each lookup:
      the lookups of the dicts before the first non-dict, with the writes
      they made kept even when the loop then fails; each entry carries what
      its lookup found. */
  method EnrichCategory(search: ProductSearchService, category: string, items: seq<Value>, sessionId: string,
                        userContext: Value, serp: SerpApi, now: int)
    returns (ok: bool, enrichedCategory: seq<Value>, ghost trace: seq<Store>, ghost found: seq<Option<Entries>>)
    modifies search
    ensures ok <==> forall m :: 0 <= m < |items| ==> items[m].Obj?
    ensures ok ==> EnrichedItems(items, category, enrichedCategory)
    ensures var lookups := Lookups(items[..DictPrefix(items)], category);
      && Trace(trace, lookups, found, sessionId, userContext, serp, now)
      && trace[0] == Store(old(search.cache), old(search.userProducts))
      && trace[|trace| - 1] == Store(search.cache, search.userProducts)
      && (ok ==> enrichedCategory == EnrichedOf(lookups, found))
  {
    enrichedCategory, found := [], [];
    trace := [Store(search.cache, search.userProducts)];
    for j := 0 to |items|
      invariant forall m :: 0 <= m < j ==> items[m].Obj?
      invariant EnrichedItems(items[..j], category, enrichedCategory)
      invariant Trace(trace, Lookups(items[..j], category), found, sessionId, userContext, serp, now)
      invariant trace[0] == Store(old(search.cache), old(search.userProducts))
      invariant trace[|trace| - 1] == Store(search.cache, search.userProducts)
      invariant enrichedCategory == EnrichedOf(Lookups(items[..j], category), found)
    {
      var product := items[j];
      LookupsSnoc(items, j, category);
      if !product.Obj? {
        assert DictPrefix(items) == j;
        return false, enrichedCategory, trace, found;
      }
      var name := GetOr(product.entries, "name", Str(""));
      if !Truthy(name) {
        EnrichedItemsSnoc(items, j, category, enrichedCategory, Null);
        continue;
      }
      var context := Obj([("category", Str(category)),
                          ("recommended_price", GetOr(product.entries, "price", Str("$0.00"))),
                          ("user_context", userContext), ("ai_recommended", Bool(true))]);
      var details := search.GetOrFetchProduct(name, Some(sessionId), context, serp, now);
      var entry := EnrichedProduct(product, category, details);
      EnrichedIsEnrichment(product, category, details);
      EnrichedItemsSnoc(items, j, category, enrichedCategory, entry);
      TraceSnoc(trace, Lookups(items[..j], category), found, Lookup(product, category), details,
                Store(search.cache, search.userProducts), sessionId, userContext, serp, now);
      enrichedCategory := enrichedCategory + [entry];
      found := found + [details];
      trace := trace + [Store(search.cache, search.userProducts)];
    }
    assert items[..|items|] == items;
    return true, enrichedCategory, trace, found;
  }

  /** The lookups the enrichment makes for one category: none when its
      value is not iterable, else those of its dicts before the first
      non-dict. */
  function CategoryLookups(c: (string, Value)): seq<Lookup>
  {
    match Iterate(c.1)
    case None => []
    case Some(items) => Lookups(items[..DictPrefix(items)], c.0)
  }

  /** Every lookup the enrichment makes, in order: those of each category up
      to and including the first that cannot be enriched. */
  function AllLookups(products: Entries): seq<Lookup>
  {
    if products == [] then []
    else
      var init := products[..|products| - 1];
      if Enrichable(init) then AllLookups(init) + CategoryLookups(products[|products| - 1])
      else AllLookups(init)
  }

  /** After a category that cannot be enriched, no further lookup is made. */
  lemma {:induction false} AllLookupsStop(products: Entries, k: nat, n: nat)
    requires k <= n <= |products| && !Enrichable(products[..k])
    ensures AllLookups(products[..n]) == AllLookups(products[..k])
    decreases n
  {
    if n > k {
      var init := products[..n][..n - 1];
      assert init == products[..n - 1];
      assert !Enrichable(init) by {
        var i :| 0 <= i < k && !EnrichableList(products[..k][i].1);
        assert products[..k][i] == init[i];
      }
      AllLookupsStop(products, k, n - 1);
    }
  }

  /** The enriched dict built from the categories and what their lookups
      found. */
  function EnrichedDict(products: Entries, found: seq<Option<Entries>>): Entries
    requires Enrichable(products) && |found| == |AllLookups(products)|
  {
    if products == [] then []
    else
      var init := products[..|products| - 1];
      var last := products[|products| - 1];
      assert Enrichable(init) by {
        forall i | 0 <= i < |init| ensures EnrichableList(init[i].1) {
          assert init[i] == products[i];
        }
      }
      var k := |AllLookups(init)|;
      EnrichedDict(init, found[..k]) + [(last.0, Arr(EnrichedOf(CategoryLookups(last), found[k..])))]
  }

  /** enrich_products_with_details: each named product of each category is
      looked up (cache first, then the search service; the lookup also
      records it for the session), and wrapped with its category and
      whether the search succeeded. Any failure in the loop returns the
      fallback instead, and the lookups made before it stay made. */
  method EnrichProductsWithDetails(search: ProductSearchService, products: Entries, sessionId: string,
                                   userContext: Value, serp: SerpApi, now: int)
    returns (r: Result<Value, Raised>, ghost trace: seq<Store>, ghost found: seq<Option<Entries>>)
    requires DistinctKeys(products)
    modifies search
    ensures Enrichable(products) ==>
              r.Ok? && r.value.Obj? && Keys(r.value.entries) == Keys(products)
              && forall i :: 0 <= i < |products| ==>
                   r.value.entries[i].1.Arr? && EnrichedList(products[i].1, products[i].0, r.value.entries[i].1.items)
    ensures !Enrichable(products) ==> r == FallbackProducts(products)
    ensures Trace(trace, AllLookups(products), found, sessionId, userContext, serp, now)
    ensures trace[0] == Store(old(search.cache), old(search.userProducts))
    ensures trace[|trace| - 1] == Store(search.cache, search.userProducts)
    ensures Enrichable(products) ==> r == Ok(Obj(EnrichedDict(products, found)))
  {
    var enriched: Entries := [];
    found := [];
    trace := [Store(search.cache, search.userProducts)];
    var i := 0;
    while i < |products|
      invariant 0 <= i <= |products| && |enriched| == i
      invariant EnrichedPrefix(products, enriched)
      invariant Trace(trace, AllLookups(products[..i]), found, sessionId, userContext, serp, now)
      invariant trace[0] == Store(old(search.cache), old(search.userProducts))
      invariant trace[|trace| - 1] == Store(search.cache, search.userProducts)
      invariant enriched == EnrichedDict(products[..i], found)
    {
      PrefixEnrichable(products, enriched);
      var ok: bool;
      ok, enriched, trace, found := EnrichNextCategory(search, products, i, enriched, trace, found,
                                                       sessionId, userContext, serp, now);
      if !ok {
        return FallbackProducts(products), trace, found;
      }
      i := i + 1;
    }
    assert products[..i] == products;
    EnrichedPrefixFull(products, enriched);
    return Ok(Obj(enriched)), trace, found;
  }

  /** One turn of the loop over the categories: category i is iterated
      and its products enriched, and the enriched dict, the trace and the
      results grow by it. When it cannot be enriched, ok is false and the
      lookups made so far are all the enrichment makes. */
  method EnrichNextCategory(search: ProductSearchService, products: Entries, i: nat, enriched: Entries,
                            ghost trace: seq<Store>, ghost found: seq<Option<Entries>>,
                            sessionId: string, userContext: Value, serp: SerpApi, now: int)
    returns (ok: bool, enriched': Entries, ghost trace': seq<Store>, ghost found': seq<Option<Entries>>)
    requires DistinctKeys(products) && i == |enriched| < |products|
    requires EnrichedPrefix(products, enriched) && Enrichable(products[..i])
    requires Trace(trace, AllLookups(products[..i]), found, sessionId, userContext, serp, now)
    requires trace[|trace| - 1] == Store(search.cache, search.userProducts)
    requires enriched == EnrichedDict(products[..i], found)
    modifies search
    ensures ok <==> EnrichableList(products[i].1)
    ensures Trace(trace', AllLookups(products[..i + 1]), found', sessionId, userContext, serp, now)
    ensures trace'[0] == trace[0] && trace'[|trace'| - 1] == Store(search.cache, search.userProducts)
    ensures !ok ==> AllLookups(products) == AllLookups(products[..i + 1]) && !Enrichable(products)
    ensures ok ==> |enriched'| == i + 1 && EnrichedPrefix(products, enriched') && Enrichable(products[..i + 1])
                   && |found'| == |AllLookups(products[..i + 1])|
                   && enriched' == EnrichedDict(products[..i + 1], found')
  {
    var category := products[i].0;
    var items := Iterate(products[i].1);
    if items.None? {
      AllLookupsSnoc(products, i);
      assert AllLookups(products[..i]) + [] == AllLookups(products[..i]);
      Stopped(products, i);
      return false, enriched, trace, found;
    }
    var enrichedCategory: seq<Value>;
    ghost var t: seq<Store>;
    ghost var f: seq<Option<Entries>>;
    ok, enrichedCategory, t, f := EnrichCategory(search, category, items.value, sessionId, userContext, serp, now);
    TraceNextCategory(products, i, trace, found, t, f, sessionId, userContext, serp, now);
    if !ok {
      Stopped(products, i);
      return false, enriched, trace + t[1..], found + f;
    }
    NextCategoryEnriched(products, i, items.value, enriched, found, enrichedCategory, f);
    return true, Set(enriched, category, Arr(enrichedCategory)), trace + t[1..], found + f;
  }

  /** With every category before i enrichable, category i's lookups follow
      theirs. */
  lemma AllLookupsSnoc(products: Entries, i: nat)
    requires i < |products| && Enrichable(products[..i])
    ensures AllLookups(products[..i + 1]) == AllLookups(products[..i]) + CategoryLookups(products[i])
  {
    assert products[..i + 1][..i] == products[..i];
  }

  /** Enriching category i extends the enriched prefix and the enriched
      dict by it. */
  lemma NextCategoryEnriched(products: Entries, i: nat, items: seq<Value>, enriched: Entries,
                             found: seq<Option<Entries>>, enrichedCategory: seq<Value>, f: seq<Option<Entries>>)
    requires DistinctKeys(products) && i == |enriched| < |products|
    requires EnrichedPrefix(products, enriched) && Enrichable(products[..i])
    requires |found| == |AllLookups(products[..i])|
    requires enriched == EnrichedDict(products[..i], found)
    requires EnrichableList(products[i].1) && Iterate(products[i].1) == Some(items)
    requires EnrichedItems(items, products[i].0, enrichedCategory)
    requires |f| == |Lookups(items[..DictPrefix(items)], products[i].0)|
    requires enrichedCategory == EnrichedOf(Lookups(items[..DictPrefix(items)], products[i].0), f)
    ensures var e2 := Set(enriched, products[i].0, Arr(enrichedCategory));
      |e2| == i + 1 && EnrichedPrefix(products, e2) && Enrichable(products[..i + 1])
      && |found + f| == |AllLookups(products[..i + 1])|
      && e2 == EnrichedDict(products[..i + 1], found + f)
  {
    var c := products[i];
    NextCategoryIsNew(products, enriched);
    SetNewKey(enriched, c.0, Arr(enrichedCategory));
    EnrichedPrefixSnoc(products, enriched, enrichedCategory);
    var e2 := Set(enriched, c.0, Arr(enrichedCategory));
    PrefixEnrichable(products, e2);
    EnrichedDictSnoc(products, i, found, f);
  }

  /** The categories enriched so far are enrichable. */
  lemma PrefixEnrichable(products: Entries, enriched: Entries)
    requires EnrichedPrefix(products, enriched)
    ensures Enrichable(products[..|enriched|])
  {
    var p := products[..|enriched|];
    forall k | 0 <= k < |p| ensures EnrichableList(p[k].1) {
      assert p[k] == products[k];
    }
  }

  /** The run of lookups grows by one category's run. */
  lemma TraceNextCategory(products: Entries, i: nat, trace: seq<Store>, found: seq<Option<Entries>>,
                          t: seq<Store>, f: seq<Option<Entries>>,
                          sessionId: string, userContext: Value, serp: SerpApi, now: int)
    requires i < |products| && Enrichable(products[..i])
    requires Trace(trace, AllLookups(products[..i]), found, sessionId, userContext, serp, now)
    requires Iterate(products[i].1).Some?
    requires var items := Iterate(products[i].1).value;
      Trace(t, Lookups(items[..DictPrefix(items)], products[i].0), f, sessionId, userContext, serp, now)
    requires t[0] == trace[|trace| - 1]
    ensures Trace(trace + t[1..], AllLookups(products[..i + 1]), found + f, sessionId, userContext, serp, now)
    ensures (trace + t[1..])[0] == trace[0] && (trace + t[1..])[|trace + t[1..]| - 1] == t[|t| - 1]
  {
    AllLookupsSnoc(products, i);
    TraceAppend(trace, AllLookups(products[..i]), found, t, CategoryLookups(products[i]), f,
                sessionId, userContext, serp, now);
  }

  /** When category i cannot be enriched, the lookups up to it are all the
      lookups made. */
  lemma Stopped(products: Entries, i: nat)
    requires i < |products| && !EnrichableList(products[i].1)
    ensures AllLookups(products) == AllLookups(products[..i + 1]) && !Enrichable(products)
  {
    assert products[..i + 1][i] == products[i];
    AllLookupsStop(products, i + 1, |products|);
    assert products[..|products|] == products;
  }

  /** The enriched dict grows by one category. */
  lemma EnrichedDictSnoc(products: Entries, i: nat, found: seq<Option<Entries>>, f: seq<Option<Entries>>)
    requires i < |products| && Enrichable(products[..i + 1])
    requires |found| == |AllLookups(products[..i])| && |f| == |CategoryLookups(products[i])|
    ensures Enrichable(products[..i]) && |found + f| == |AllLookups(products[..i + 1])|
    ensures EnrichedDict(products[..i + 1], found + f)
            == EnrichedDict(products[..i], found) + [(products[i].0, Arr(EnrichedOf(CategoryLookups(products[i]), f)))]
  {
    var p := products[..i + 1];
    assert p[..i] == products[..i] && p[i] == products[i];
    assert Enrichable(products[..i]) by {
      forall k | 0 <= k < i ensures EnrichableList(products[..i][k].1) {
        assert products[..i][k] == p[k];
      }
    }
    AllLookupsSnoc(products, i);
    assert (found + f)[..|found|] == found && (found + f)[|found|..] == f;
  }

  /** The categories enriched so far: the first |enriched| categories, in
      order, each enrichable and enriched. */
  predicate EnrichedPrefix(products: Entries, enriched: Entries)
  {
    |enriched| <= |products|
    && forall k :: 0 <= k < |enriched| ==>
         enriched[k].0 == products[k].0 && EnrichableList(products[k].1) && enriched[k].1.Arr?
         && EnrichedList(products[k].1, products[k].0, enriched[k].1.items)
  }

  /** With distinct category names, the next category is not a key yet. */
  lemma NextCategoryIsNew(products: Entries, enriched: Entries)
    requires DistinctKeys(products) && EnrichedPrefix(products, enriched) && |enriched| < |products|
    ensures !HasKey(enriched, products[|enriched|].0)
  {
    KeysIndex(enriched);
    forall k | 0 <= k < |enriched| ensures Keys(enriched)[k] != products[|enriched|].0 {
      assert enriched[k].0 == products[k].0;
    }
  }

  lemma EnrichedPrefixSnoc(products: Entries, enriched: Entries, enrichedCategory: seq<Value>)
    requires EnrichedPrefix(products, enriched) && |enriched| < |products|
    requires var c := products[|enriched|];
      Iterate(c.1).Some? && (forall m :: 0 <= m < |Iterate(c.1).value| ==> Iterate(c.1).value[m].Obj?)
      && EnrichedItems(Iterate(c.1).value, c.0, enrichedCategory)
    ensures EnrichedPrefix(products, enriched + [(products[|enriched|].0, Arr(enrichedCategory))])
  {
  }

  /** A full prefix is the whole enriched dict. */
  lemma EnrichedPrefixFull(products: Entries, enriched: Entries)
    requires EnrichedPrefix(products, enriched) && |enriched| == |products|
    ensures Enrichable(products) && Keys(enriched) == Keys(products)
  {
    KeysEqual(enriched, products);
  }

  /** `sum(len(products) for products in product_results.values())`; a value
      without a length raises TypeError. */
  function TotalProductsSearched(results: Entries): (r: Result<nat, Raised>)
    ensures r.Ok? <==> forall i :: 0 <= i < |results| ==> PyLen(results[i].1).Some?
  {
    if results == [] then Ok(0)
    else
      var last := results[|results| - 1];
      match TotalProductsSearched(results[..|results| - 1])
      case Err(e) => Err(e)
      case Ok(n) =>
        match PyLen(last.1)
        case None => Err(PyException("TypeError", "object of type '" + TypeName(last.1) + "' has no len()"))
        case Some(m) => Ok(n + m)
  }

  /** The total over two groups of categories is the sum of their totals. */
  lemma {:induction false} TotalAdditive(a: Entries, b: Entries)
    requires TotalProductsSearched(a).Ok? && TotalProductsSearched(b).Ok?
    ensures TotalProductsSearched(a + b) == Ok(TotalProductsSearched(a).value + TotalProductsSearched(b).value)
    decreases |b|
  {
    if b == [] {
      assert a + b == a;
    } else {
      var b0 := b[..|b| - 1];
      assert (a + b)[..|a + b| - 1] == a + b0;
      assert TotalProductsSearched(b0).Ok?;
      TotalAdditive(a, b0);
    }
  }

  /** For enrichable lists, the number of entries enriched never exceeds the
      number of products searched. */
  lemma {:induction false} NamedWithinTotal(results: Entries)
    requires Enrichable(results)
    ensures TotalProductsSearched(results).Ok?
    ensures SumNamed(results) <= TotalProductsSearched(results).value
    decreases |results|
  {
    if results != [] {
      var init := results[..|results| - 1];
      assert Enrichable(init) by {
        forall i | 0 <= i < |init| ensures EnrichableList(init[i].1) {
          assert init[i] == results[i];
        }
      }
      NamedWithinTotal(init);
      assert EnrichableList(results[|results| - 1].1);
    }
  }

  /** The number of named products over all enrichable categories. */
  function SumNamed(results: Entries): nat
    requires Enrichable(results)
  {
    if results == [] then 0
    else
      var init := results[..|results| - 1];
      assert Enrichable(init) by {
        forall i | 0 <= i < |init| ensures EnrichableList(init[i].1) {
          assert init[i] == results[i];
        }
      }
      SumNamed(init) + |NamedProducts(Iterate(results[|results| - 1].1).value)|
  }
}
