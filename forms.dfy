/** The questionnaire a user submits in phase 1 (app/models/skincare/form_schemas.py),
    after validation, and the profile lines the prompts render from it. */
module Forms {
  import opened Wrappers
  import opened Text

  datatype SkinType = Oily | Dry | Combination | Normal | Sensitive | AcneProne

  function SkinTypeName(t: SkinType): string
  {
    match t
    case Oily => "oily"
    case Dry => "dry"
    case Combination => "combination"
    case Normal => "normal"
    case Sensitive => "sensitive"
    case AcneProne => "acne-prone"
  }

  datatype Experience = Good | Bad | Neutral

  function ExperienceName(e: Experience): string
  {
    match e
    case Good => "good"
    case Bad => "bad"
    case Neutral => "neutral"
  }

  datatype ProductExperience = ProductExperience(product: string, experience: Experience, reason: Option<string>)

  datatype FormData = FormData(
    skinType: seq<SkinType>,
    skinConditions: seq<string>,
    budget: string,
    allergies: seq<string>,
    productExperiences: seq<ProductExperience>,
    goals: seq<string>,
    customGoal: Option<string>)

  /** `form_data.custom_goal` is truthy: present and non-empty. */
  predicate HasCustomGoal(f: FormData)
  {
    f.customGoal.Some? && f.customGoal.value != []
  }

  /** `', '.join(form_data.skin_type)` */
  function SkinTypes(f: FormData): string
  {
    Join(seq(|f.skinType|, i requires 0 <= i < |f.skinType| => SkinTypeName(f.skinType[i])), ", ")
  }

  /** The goals with the custom goal appended when it is truthy. */
  function AllGoals(f: FormData): (gs: seq<string>)
    ensures HasCustomGoal(f) ==> gs == f.goals + [f.customGoal.value]
    ensures !HasCustomGoal(f) ==> gs == f.goals
  {
    f.goals + if HasCustomGoal(f) then [f.customGoal.value] else []
  }

  /** `', '.join(goals + ([custom_goal] if custom_goal else []))` */
  function GoalsText(f: FormData): string
  {
    Join(AllGoals(f), ", ")
  }

  /** The quote repr() wraps a string in: a double quote when the text
      holds a single quote and no double quote, a single quote otherwise. */
  function ReprQuote(s: string): char
  {
    if '\'' in s && '"' !in s then '"' else '\''
  }

  /** Characters repr() writes as a two-digit hex escape: the C0 controls
      other than tab, newline and carriage return, DEL and the C1 controls,
      the no-break space and the soft hyphen. */
  predicate HexEscaped(c: char)
  {
    (c as int < 0x20 && c != '\t' && c != '\n' && c != '\r')
    || (0x7f <= c as int <= 0xa0) || c as int == 0xad
  }

  /** A character repr() writes as itself inside quotes q. */
  predicate ShownAsIs(c: char, q: char)
  {
    c != q && c != '\\' && c != '\t' && c != '\n' && c != '\r' && !HexEscaped(c)
  }

  function HexDigit(d: nat): char
    requires d < 16
  {
    if d < 10 then ('0' as int + d) as char else ('a' as int + d - 10) as char
  }

  function HexValue(c: char): (r: Option<nat>)
    ensures r.Some? ==> r.value < 16
  {
    if '0' <= c <= '9' then Some(c as int - '0' as int)
    else if 'a' <= c <= 'f' then Some(c as int - 'a' as int + 10)
    else None
  }

  /** How repr() writes one character inside quotes q. */
  function EscapeChar(c: char, q: char): string
  {
    if c == q || c == '\\' then ['\\', c]
    else if c == '\t' then "\\t"
    else if c == '\n' then "\\n"
    else if c == '\r' then "\\r"
    else if HexEscaped(c) then ['\\', 'x', HexDigit(c as int / 16), HexDigit(c as int % 16)]
    else [c]
  }

  /** The inside of a repr: every character escaped for quotes q. */
  function Escape(s: string, q: char): (r: string)
    ensures |r| >= |s|
    ensures (forall i :: 0 <= i < |s| ==> ShownAsIs(s[i], q)) ==> r == s
  {
    if s == [] then [] else EscapeChar(s[0], q) + Escape(s[1..], q)
  }

  /** A text repr() shows unchanged between its quotes: no backslash, no
      character it escapes, and not both kinds of quote. */
  predicate ReprPlain(s: string)
  {
    !('\'' in s && '"' in s) && forall i :: 0 <= i < |s| ==> s[i] == '\'' || s[i] == '"' || ShownAsIs(s[i], '\'')
  }

  /** Python's repr() of a string: the chosen quote on each side of the
      escaped text. A plain text is shown as it is. */
  function ReprStr(s: string): (r: string)
    ensures |r| >= |s| + 2 && r[0] == ReprQuote(s) && r[|r| - 1] == ReprQuote(s)
    ensures ReprPlain(s) ==> r == [ReprQuote(s)] + s + [ReprQuote(s)]
  {
    var q := ReprQuote(s);
    assert ReprPlain(s) ==> forall i :: 0 <= i < |s| ==> ShownAsIs(s[i], q) by {
      if ReprPlain(s) {
        forall i | 0 <= i < |s| ensures ShownAsIs(s[i], q) {
          assert s[i] in s;
        }
      }
    }
    [q] + Escape(s, q) + [q]
  }

  function Prepend(c: char, rest: Option<string>): Option<string>
  {
    match rest
    case Some(t) => Some([c] + t)
    case None => None
  }

  /** Reading back the inside of a repr: each escape gives the character it
      stands for, and a malformed escape gives None. */
  function Unescape(t: string): Option<string>
    decreases |t|
  {
    if t == [] then Some([])
    else if t[0] != '\\' then Prepend(t[0], Unescape(t[1..]))
    else if |t| < 2 then None
    else if t[1] == '\\' || t[1] == '\'' || t[1] == '"' then Prepend(t[1], Unescape(t[2..]))
    else if t[1] == 't' then Prepend('\t', Unescape(t[2..]))
    else if t[1] == 'n' then Prepend('\n', Unescape(t[2..]))
    else if t[1] == 'r' then Prepend('\r', Unescape(t[2..]))
    else if t[1] == 'x' && |t| >= 4 && HexValue(t[2]).Some? && HexValue(t[3]).Some? then
      Prepend((16 * HexValue(t[2]).value + HexValue(t[3]).value) as char, Unescape(t[4..]))
    else None
  }

  lemma HexDigitValue(d: nat)
    requires d < 16
    ensures HexValue(HexDigit(d)) == Some(d)
  {
  }

  /** One escaped character reads back as itself, whatever follows. */
  lemma EscapeCharRead(c: char, q: char, rest: string)
    requires q == '\'' || q == '"'
    ensures Unescape(EscapeChar(c, q) + rest) == Prepend(c, Unescape(rest))
  {
    var t := EscapeChar(c, q) + rest;
    if c == q || c == '\\' || c == '\t' || c == '\n' || c == '\r' {
      assert t[2..] == rest;
    } else if HexEscaped(c) {
      var hi, lo := c as int / 16, c as int % 16;
      HexDigitValue(hi);
      HexDigitValue(lo);
      assert t[2] == HexDigit(hi) && t[3] == HexDigit(lo) && t[4..] == rest;
      assert (16 * hi + lo) as char == c;
    } else {
      assert t[1..] == rest;
    }
  }

  /** Reading back the escaped text gives the text. */
  lemma {:induction false} EscapeRoundTrip(s: string, q: char)
    requires q == '\'' || q == '"'
    ensures Unescape(Escape(s, q)) == Some(s)
  {
    if s != [] {
      EscapeRoundTrip(s[1..], q);
      EscapeCharRead(s[0], q, Escape(s[1..], q));
      assert [s[0]] + s[1..] == s;
    }
  }

  /** repr() loses nothing: its inside reads back as the text. */
  lemma ReprRoundTrip(s: string)
    ensures var r := ReprStr(s); Unescape(r[1..|r| - 1]) == Some(s)
  {
    var r := ReprStr(s);
    assert r[1..|r| - 1] == Escape(s, ReprQuote(s));
    EscapeRoundTrip(s, ReprQuote(s));
  }

  /** One experience as the prompts format it: "product (experience)". */
  function ExperienceLabel(p: ProductExperience): string
  {
    p.product + " (" + ExperienceName(p.experience) + ")"
  }

  /** str() of the list `[f"{p.product} ({p.experience})" for p in ...]`. */
  function ExperienceListRepr(f: FormData): string
  {
    var ps := f.productExperiences;
    "[" + Join(seq(|ps|, i requires 0 <= i < |ps| => ReprStr(ExperienceLabel(ps[i]))), ", ") + "]"
  }

  /** Every goal, and the custom goal when it is truthy, appears in the goals line. */
  lemma GoalsTextMentions(f: FormData)
    ensures forall i :: 0 <= i < |f.goals| ==> Contains(GoalsText(f), f.goals[i])
    ensures HasCustomGoal(f) ==> Contains(GoalsText(f), f.customGoal.value)
  {
    var gs := AllGoals(f);
    forall i | 0 <= i < |f.goals| ensures Contains(GoalsText(f), f.goals[i]) {
      assert gs[i] == f.goals[i];
      JoinContains(gs, ", ", i);
    }
    if HasCustomGoal(f) {
      assert gs[|f.goals|] == f.customGoal.value;
      JoinContains(gs, ", ", |f.goals|);
    }
  }

  /** Every experience's label appears in the rendered list as its repr,
      and as itself when repr shows it unchanged. */
  lemma ExperienceListMentions(f: FormData, k: nat)
    requires k < |f.productExperiences|
    ensures Contains(ExperienceListRepr(f), ReprStr(ExperienceLabel(f.productExperiences[k])))
    ensures ReprPlain(ExperienceLabel(f.productExperiences[k]))
            ==> Contains(ExperienceListRepr(f), ExperienceLabel(f.productExperiences[k]))
  {
    var ps := f.productExperiences;
    var labels := seq(|ps|, i requires 0 <= i < |ps| => ReprStr(ExperienceLabel(ps[i])));
    var joined := Join(labels, ", ");
    JoinContains(labels, ", ", k);
    var i :| 0 <= i <= |joined| && OccursAt(joined, labels[k], i);
    var whole := "[" + joined + "]";
    assert OccursAt(whole, joined, 1);
    OccursTrans(whole, joined, labels[k], 1, i);
    var name := ExperienceLabel(ps[k]);
    if ReprPlain(name) {
      ReprShowsPlain(name);
      OccursTrans(whole, labels[k], name, 1 + i, 1);
    }
  }

  /** A string repr shows unchanged sits right after the opening quote. */
  lemma ReprShowsPlain(s: string)
    requires ReprPlain(s)
    ensures OccursAt(ReprStr(s), s, 1)
  {
    var r := ReprStr(s);
    assert r[1..|r| - 1] == s;
  }
}
