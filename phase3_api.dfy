/** The stand-alone phase-3 endpoint: the recommendation prompt built from a
    user's profile and skin analysis, and the parsing of the model's reply. */
module Phase3Api {
  import opened Wrappers
  import opened Text
  import opened Json
  import opened Fences

  /** A product the user has tried and how it went, in the user's words. */
  datatype ProductExperience = ProductExperience(product: string, experience: string)

  /** The profile form of this endpoint. */
  datatype ProfileForm = ProfileForm(
    skinType: seq<string>,
    skinConditions: seq<string>,
    budget: string,
    allergies: seq<string>,
    productExperiences: seq<ProductExperience>,
    goals: seq<string>,
    customGoal: Option<string>)

  /** The request body: the form and the skin analysis as a JSON object. */
  datatype Phase3Request = Phase3Request(form: ProfileForm, analysis: Value)

  // --------------------------------------------------------------- the prompt

  function ExperienceEntry(p: ProductExperience): string
  {
    p.product + " (" + p.experience + ")"
  }

  /** The experiences as "product (experience)", joined by ", ". */
  function ExperienceText(ps: seq<ProductExperience>): string
  {
    Join(seq(|ps|, i requires 0 <= i < |ps| => ExperienceEntry(ps[i])), ", ")
  }

  /** Each experience is rendered in the joined text. */
  lemma ExperienceTextMentions(ps: seq<ProductExperience>, k: nat)
    requires k < |ps|
    ensures Contains(ExperienceText(ps), ps[k].product + " (" + ps[k].experience + ")")
  {
    JoinContains(seq(|ps|, i requires 0 <= i < |ps| => ExperienceEntry(ps[i])), ", ", k);
  }

  /** A single experience is rendered alone, with no separator. */
  lemma ExperienceTextSingle(p: ProductExperience)
    ensures ExperienceText([p]) == p.product + " (" + p.experience + ")"
  {
    assert seq(1, i requires 0 <= i < 1 => ExperienceEntry([p][i])) == [ExperienceEntry(p)];
  }

  const ExperiencesLabel: string := "\n- Product experiences: "

  /** The profile part of the prompt, up to the goals line. */
  function ProfileText(f: ProfileForm): string
  {
    "\nYou are a professional AI skincare consultant.\n\nUser profile:\n- Skin type: "
    + Join(f.skinType, ", ")
    + "\n- Skin conditions: " + Join(f.skinConditions, ", ")
    + "\n- Budget: " + f.budget + " (assume this is in USD)"
    + "\n- Allergies: " + Join(f.allergies, ", ")
    + (ExperiencesLabel + ExperienceText(f.productExperiences))
    + "\n- Skincare goals: " + Join(f.goals, ", ") + "\n"
  }

  /** A custom goal counts only when it is present and not empty. */
  predicate HasCustomGoal(f: ProfileForm)
  {
    f.customGoal.Some? && f.customGoal.value != []
  }

  const AdditionalGoalsLabel: string := "- Additional goals: "

  /** The line added for a custom goal, or nothing. */
  function GoalLine(f: ProfileForm): (r: string)
    ensures r == [] <==> !HasCustomGoal(f)
  {
    if HasCustomGoal(f) then AdditionalGoalsLabel + f.customGoal.value + "\n" else []
  }

  /** The task description that closes the prompt. */
  const TaskText: string :=
    "TASK:\nYou are to recommend a full skincare routine based on the user\U{2019}s profile and needs. You must:\n\n"
    + "1. Prioritize products by importance: facial wash > treatment > moisturizer > sunscreen > serum > toner > night cream > eye cream > etc.\n"
    + "2. MAXIMIZE the budget but do NOT exceed it. Ensure total cost <= budget.\n"
    + "3. Product prices are in USD. Calculate the total cost and remaining budget precisely.\n"
    + "4. If budget is too low, include only the essentials and defer additional products as `future_recommendations`.\n"
    + "5. `future_recommendations` must contain at least TWO categories (e.g., serum, toner) if budget allows only the essentials.\n"
    + "6. DO NOT deduct the cost of future recommendations from the budget.\n"
    + "7. Do NOT include notes, explanations, or markdown. Only return structured JSON.\n\n"
    + "Format the response as:\n\n{\n"
    + "  \"facial_wash\": [{\"name\": \"Product\", \"price\": \"$X\", \"priority_index\": 0}],\n"
    + "  \"treatment\": [{...}],\n"
    + "  \"moisturizer\": [{...}],\n"
    + "  ...\n"
    + "  \"future_recommendations\": [\n"
    + "    {\"toner\": [{\"name\": \"Product\", \"price\": \"$X\", \"priority_index\": N}]},\n"
    + "    {\"serum\": [{\"name\": \"Product\", \"price\": \"$X\", \"priority_index\": N+1}]}\n"
    + "  ],\n"
    + "  \"total_cost\": \"$XX\",\n"
    + "  \"remaining_budget\": \"$YY\"\n"
    + "}\n\nReturn only valid JSON with no extra formatting or text.\n"

  /** The analysis part: `analysisJson` is the skin analysis as json.dumps
      renders it with an indent of two. */
  function AnalysisText(analysisJson: string): string
  {
    AnalysisLabel + analysisJson + AnalysisClose + TaskText
  }

  const AnalysisLabel: string := "\n\nSkin Analysis Results:\n"
  const AnalysisClose: string := "\n\n---\n\n"

  /** build_prompt: the profile, the custom-goal line when there is one, and
      the analysis with the task. */
  function BuildPrompt(f: ProfileForm, analysisJson: string): string
  {
    ProfileText(f) + GoalLine(f) + AnalysisText(analysisJson)
  }

  /** The prompt opens with the profile and closes with the analysis part:
      the skin analysis under its heading, the separator and the task. */
  lemma PromptLayout(f: ProfileForm, analysisJson: string)
    ensures StartsWith(BuildPrompt(f, analysisJson), ProfileText(f))
    ensures EndsWith(BuildPrompt(f, analysisJson), AnalysisText(analysisJson))
  {
    PromptShape(ProfileText(f), GoalLine(f), AnalysisText(analysisJson));
  }

  /** A text put together from three pieces starts with the first and ends
      with the last. */
  lemma PromptShape(head: string, middle: string, tail: string)
    ensures StartsWith(head + middle + tail, head) && EndsWith(head + middle + tail, tail)
  {
    var r := head + middle + tail;
    assert r[..|head|] == head;
    assert r[|r| - |tail|..] == tail;
  }

  /** A custom goal is written on its own line right after the goals line. */
  lemma AdditionalGoalsLine(f: ProfileForm, analysisJson: string)
    requires HasCustomGoal(f)
    ensures OccursAt(BuildPrompt(f, analysisJson),
                     AdditionalGoalsLabel + f.customGoal.value + "\n", |ProfileText(f)|)
  {
    OccursMiddle(ProfileText(f), GoalLine(f), AnalysisText(analysisJson));
  }

  /** The prompt is the one without a custom goal exactly when the custom goal
      is missing or empty. */
  lemma CustomGoalChangesPrompt(f: ProfileForm, analysisJson: string)
    ensures BuildPrompt(f, analysisJson) == BuildPrompt(f.(customGoal := None), analysisJson)
            <==> !HasCustomGoal(f)
  {
    var g := f.(customGoal := None);
    assert ProfileText(g) == ProfileText(f);
    assert GoalLine(g) == [];
    if HasCustomGoal(f) {
      assert |BuildPrompt(f, analysisJson)| > |BuildPrompt(g, analysisJson)|;
    }
  }

  /** Every product experience appears in the profile as "product (experience)". */
  lemma ProfileMentionsExperience(f: ProfileForm, k: nat)
    requires k < |f.productExperiences|
    ensures Contains(ProfileText(f), ExperienceEntry(f.productExperiences[k]))
  {
    var e := ExperienceEntry(f.productExperiences[k]);
    var x := ExperienceText(f.productExperiences);
    var a := "\nYou are a professional AI skincare consultant.\n\nUser profile:\n- Skin type: "
      + Join(f.skinType, ", ")
      + "\n- Skin conditions: " + Join(f.skinConditions, ", ")
      + "\n- Budget: " + f.budget + " (assume this is in USD)"
      + "\n- Allergies: " + Join(f.allergies, ", ");
    var m := ExperiencesLabel + x;
    var b := "\n- Skincare goals: " + Join(f.goals, ", ") + "\n";
    assert ProfileText(f) == a + m + b;
    OccursMiddle(a, m, b);
    ExperienceTextMentions(f.productExperiences, k);
    var i :| 0 <= i <= |x| && OccursAt(x, e, i);
    OccursMiddle(ExperiencesLabel, x, []);
    assert m == ExperiencesLabel + x + [];
    OccursTrans(m, x, e, |ExperiencesLabel|, i);
    OccursTrans(a + m + b, m, e, |a|, |ExperiencesLabel| + i);
  }

  /** Whatever occurs in a text occurs in any extension of it. */
  lemma ContainsExtended(x: string, y: string, p: string)
    requires Contains(x, p)
    ensures Contains(x + y, p)
  {
    var i :| 0 <= i <= |x| && OccursAt(x, p, i);
    assert (x + y)[i..i + |p|] == x[i..i + |p|];
    assert OccursAt(x + y, p, i);
  }

  /** Every product experience appears in the prompt as "product (experience)". */
  lemma PromptMentionsExperience(f: ProfileForm, analysisJson: string, k: nat)
    requires k < |f.productExperiences|
    ensures Contains(BuildPrompt(f, analysisJson), ExperienceEntry(f.productExperiences[k]))
  {
    ProfileMentionsExperience(f, k);
    ContainsExtended(ProfileText(f), GoalLine(f), ExperienceEntry(f.productExperiences[k]));
    ContainsExtended(ProfileText(f) + GoalLine(f), AnalysisText(analysisJson),
                     ExperienceEntry(f.productExperiences[k]));
  }

  // ----------------------------------------------------------- the reply

  const ParseFailure: string := "Failed to parse response: "

  /** parse_gemini_response: remove every "```" with the letters after it,
      trim and parse; any failure is a 500 "Failed to parse response: ..." */
  function ParseGeminiResponse(text: string, codec: Codec): (r: Result<Value, Raised>)
    ensures r.Ok? <==> codec.loads(Strip(RemoveFences(text, true))).Ok?
    ensures r.Ok? ==> r.value == codec.loads(Strip(RemoveFences(text, true))).value
    ensures r.Err? ==> r == Err(HttpException(500, ParseFailure
                                  + codec.loads(Strip(RemoveFences(text, true))).error))
  {
    match codec.loads(Strip(RemoveFences(text, true)))
    case Ok(v) => Ok(v)
    case Err(e) => Err(HttpException(500, ParseFailure + e))
  }

  /** What is parsed has no fence left and is trimmed. */
  lemma ParsedTextClean(text: string)
    ensures !Contains(Strip(RemoveFences(text, true)), Fence)
    ensures Trimmed(Strip(RemoveFences(text, true)))
  {
    RemoveFencesGone(text, true);
    if Contains(Strip(RemoveFences(text, true)), Fence) {
      StripContains(RemoveFences(text, true), Fence);
    }
  }

  /** A body in a tagged fence is parsed as the body. */
  lemma ParseFencedReply(tag: string, body: string, codec: Codec)
    requires forall i :: 0 <= i < |tag| ==> IsAsciiLetter(tag[i])
    requires body != [] && Trimmed(body) && '`' !in body
    ensures ParseGeminiResponse(Fence + tag + "\n" + body + "\n" + Fence, codec)
         == ParseGeminiResponse(body, codec)
  {
    var inner := "\n" + body + "\n";
    assert Fence + tag + "\n" + body + "\n" + Fence == Fence + tag + (inner + Fence);
    RemoveTaggedFence(tag, inner + Fence);
    RemoveFencesPrefix(inner, Fence, true);
    assert RemoveFences(Fence, true) == [];
    assert inner + [] == inner;
    StripExact("\n", body, "\n", IsSpace);
    RemoveFencesNoTicks(body, true);
    StripOfTrimmed(body);
  }

  // ------------------------------------------------------------ the endpoint

  /** The generative model: the reply text for a prompt, or the message of
      the exception the call raised. */
  type ReplyModel = string -> Result<string, string>

  /** What phase3_recommend makes of the model's reply: every exception, the
      parse error's HTTPException included, is caught and raised again as a
      500 whose detail is str() of it, so a parse error arrives as
      "500: Failed to parse response: ...". */
  function HandleReply(reply: Result<string, string>, codec: Codec): (r: Result<Value, Raised>)
    ensures r.Err? ==> r.error.HttpException? && r.error.status == 500
    ensures r.Ok? <==> reply.Ok? && ParseGeminiResponse(reply.value, codec).Ok?
    ensures r.Ok? ==> r.value == ParseGeminiResponse(reply.value, codec).value
    ensures reply.Err? ==> r == Err(HttpException(500, reply.error))
  {
    match reply
    case Err(e) => Err(HttpException(500, e))
    case Ok(text) =>
      match ParseGeminiResponse(text, codec)
      case Ok(v) => Ok(v)
      case Err(raised) => Err(HttpException(500, ErrorText(raised)))
  }

  /** phase3_recommend: the prompt built from the request goes to the model
      and its reply is handled as above. */
  function Phase3Recommend(data: Phase3Request, model: ReplyModel, codec: Codec,
                           dumpIndented: Value -> string): (r: Result<Value, Raised>)
    ensures r.Err? ==> r.error.HttpException? && r.error.status == 500
    ensures var reply := model(BuildPrompt(data.form, dumpIndented(data.analysis)));
            r.Ok? <==> reply.Ok? && ParseGeminiResponse(reply.value, codec).Ok?
    ensures var reply := model(BuildPrompt(data.form, dumpIndented(data.analysis)));
            r.Ok? ==> r.value == ParseGeminiResponse(reply.value, codec).value
    ensures var reply := model(BuildPrompt(data.form, dumpIndented(data.analysis)));
            reply.Err? ==> r == Err(HttpException(500, reply.error))
  {
    var reply := model(BuildPrompt(data.form, dumpIndented(data.analysis)));
    HandleReply(reply, codec)
  }

  /** str() of a 500 HTTPException puts the status in front of the detail. */
  lemma ErrorText500(detail: string)
    ensures ErrorText(HttpException(500, detail)) == "500: " + detail
  {
    assert NatToString(5) == "5";
    assert NatToString(50) == "50";
    assert NatToString(500) == "500";
  }

  /** A reply that does not parse surfaces with the status in front of the
      parse error's own detail. */
  lemma ParseErrorRewrapped(text: string, codec: Codec)
    requires ParseGeminiResponse(text, codec).Err?
    ensures HandleReply(Ok(text), codec)
         == Err(HttpException(500, "500: " + ParseFailure
                                   + codec.loads(Strip(RemoveFences(text, true))).error))
  {
    var e := codec.loads(Strip(RemoveFences(text, true))).error;
    ErrorText500(ParseFailure + e);
    assert "500: " + (ParseFailure + e) == "500: " + ParseFailure + e;
  }
}
