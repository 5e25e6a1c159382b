/** Phase 4: turning the product recommendations and the user's form into a
    skincare routine (app/services/routine_creation_service.py). The model's
    reply is an oracle; json.loads and json.dumps are the abstract Codec. */
module RoutineCreation {
  import opened Wrappers
  import opened Text
  import opened Json
  import opened Fences
  import opened Forms

  // ------------------------------------------------------ datetime sanitiser

  /** No datetime anywhere inside v. */
  predicate NoTime(v: Value)
  {
    match v
    case Time(_) => false
    case Arr(items) => forall i :: 0 <= i < |items| ==> NoTime(items[i])
    case Obj(entries) => forall i :: 0 <= i < |entries| ==> NoTime(entries[i].1)
    case _ => true
  }

  /** No ObjectId anywhere inside v. */
  predicate NoObjectId(v: Value)
  {
    match v
    case ObjectId(_) => false
    case Arr(items) => forall i :: 0 <= i < |items| ==> NoObjectId(items[i])
    case Obj(entries) => forall i :: 0 <= i < |entries| ==> NoObjectId(entries[i].1)
    case _ => true
  }

  /** sanitize_datetime_objects: every datetime becomes its ISO text (`iso`
      is datetime.isoformat), each list item and each dict value is
      sanitised in its place, dicts keep their keys in order, and every
      other value is returned as it is. */
  function Sanitize(v: Value, iso: int -> string): (r: Value)
    ensures NoTime(r)
    ensures v.Time? ==> r == Str(iso(v.at))
    ensures v.Arr? ==> r.Arr? && |r.items| == |v.items|
                       && forall i :: 0 <= i < |v.items| ==> r.items[i] == Sanitize(v.items[i], iso)
    ensures v.Obj? ==> r.Obj? && Keys(r.entries) == Keys(v.entries) && |r.entries| == |v.entries|
                       && forall i :: 0 <= i < |v.entries| ==>
                            r.entries[i] == (v.entries[i].0, Sanitize(v.entries[i].1, iso))
    ensures !v.Time? && !v.Arr? && !v.Obj? ==> r == v
  {
    match v
    case Time(at) => Str(iso(at))
    case Arr(items) =>
      var r := Arr(seq(|items|, i requires 0 <= i < |items| => Sanitize(items[i], iso)));
      assert forall i :: 0 <= i < |items| ==> NoTime(r.items[i]);
      r
    case Obj(entries) =>
      var r := Obj(seq(|entries|, i requires 0 <= i < |entries| => (entries[i].0, Sanitize(entries[i].1, iso))));
      assert forall i :: 0 <= i < |entries| ==> NoTime(r.entries[i].1);
      KeysEqual(r.entries, entries);
      r
    case _ => v
  }

  /** A value without datetimes is returned unchanged. */
  lemma {:induction false} SanitizeTimeless(v: Value, iso: int -> string)
    requires NoTime(v)
    ensures Sanitize(v, iso) == v
  {
    match v
    case Arr(items) =>
      forall i | 0 <= i < |items| ensures Sanitize(items[i], iso) == items[i] {
        SanitizeTimeless(items[i], iso);
      }
      assert Sanitize(v, iso).items == items;
    case Obj(entries) =>
      forall i | 0 <= i < |entries| ensures Sanitize(entries[i].1, iso) == entries[i].1 {
        SanitizeTimeless(entries[i].1, iso);
      }
      assert Sanitize(v, iso).entries == entries;
    case _ =>
  }

  /** Sanitising twice is sanitising once. */
  lemma SanitizeIdempotent(v: Value, iso: int -> string)
    ensures Sanitize(Sanitize(v, iso), iso) == Sanitize(v, iso)
  {
    SanitizeTimeless(Sanitize(v, iso), iso);
  }

  /** After sanitising, json.dumps can fail only because of an ObjectId. */
  lemma {:induction false} SanitizedSerializable(v: Value, iso: int -> string)
    ensures Serializable(Sanitize(v, iso)) <==> NoObjectId(v)
  {
    match v
    case Arr(items) =>
      var r := Sanitize(v, iso);
      forall i | 0 <= i < |items|
        ensures Serializable(r.items[i]) <==> NoObjectId(items[i])
      {
        SanitizedSerializable(items[i], iso);
      }
      if !NoObjectId(v) {
        var i :| 0 <= i < |items| && !NoObjectId(items[i]);
        assert !Serializable(r.items[i]);
      }
    case Obj(entries) =>
      var r := Sanitize(v, iso);
      forall i | 0 <= i < |entries|
        ensures Serializable(r.entries[i].1) <==> NoObjectId(entries[i].1)
      {
        SanitizedSerializable(entries[i].1, iso);
      }
      if !NoObjectId(v) {
        var i :| 0 <= i < |entries| && !NoObjectId(entries[i].1);
        assert !Serializable(r.entries[i].1);
      }
    case _ =>
  }

  // ------------------------------------------------------------ the prompt

  /** The user-profile block of get_routine_for_user. */
  function UserProfile(f: FormData): string
  {
    "\n    User Profile:\n    - Skin Type: " + SkinTypes(f)
    + "\n    - Skin Conditions: " + Join(f.skinConditions, ", ")
    + "\n    - Allergies: " + Join(f.allergies, ", ")
    + "\n    - Product Experiences: " + ExperienceListRepr(f)
    + "\n    - Goals: " + GoalsText(f) + "\n    "
  }

  const RoutineIntro: string :=
    "\n    You are a skincare assistant creating a personalized skincare routine for a user.\n\n    User Profile:\n    "

  const ProductsHeading: string := "\n\n    Products:\n    "

  /** The instructions and the worked example (a cleanser and a moisturizer
      step) that close the prompt; the f-string's doubled braces are single
      braces in the text. */
  const RoutineInstructions: string := @"

    Instructions:
    - For each product, create a step-by-step usage instruction.
    - Provide a brief description (e.g., 'Gentle Hydrating Cleanser: Ideal for daily use, removes dirt and impurities').
    - Include days for usage (e.g., 'monday', 'tuesday', 'wednesday', etc.).
    - Specify the time(s) of use in an array (e.g., [""morning"", ""night""] if it is used twice a day).
    - Provide the duration in seconds (e.g., 30 for cleanser).
    - Provide the waiting time in seconds between products (e.g., 900 for waiting 15 minutes).
    - Only provide the raw JSON without markdown or extra commentary.

    Example:
    ""cleanser"": {
        ""name"": ""CeraVe Renewing SA Cleanser"",
        ""tag"": ""Gentle Hydrating Cleanser"",
        ""description"": ""Ideal for daily use, removes dirt and impurities"",
        ""instructions"": [
            ""Wet face with lukewarm water."",
            ""Apply a small amount to face and neck."",
            ""Massage in circular motions."",
            ""Rinse thoroughly.""
        ],
        ""duration"": 30,
        ""waiting_time"": 900,
        ""days"": {
            ""monday"": true,
            ""tuesday"": true,
            ""wednesday"": true,
            ""thursday"": true,
            ""friday"": true,
            ""saturday"": true,
            ""sunday"": true
        },
        ""time"": [""morning""]
    },
    ""moisturizer"": {
        ""name"": ""Neutrogena Hydro Boost Water Gel"",
        ""tag"": ""Hyaluronic Acid Moisturizer"",
        ""description"": ""Hydrates and replenishes moisture"",
        ""instructions"": [
            ""Take a small amount and gently apply to face and neck."",
            ""Massage in upward circular motions.""
        ],
        ""duration"": 20,
        ""waiting_time"": 600,
        ""days"": {
            ""monday"": true,
            ""tuesday"": true,
            ""wednesday"": true,
            ""thursday"": true,
            ""friday"": true,
            ""saturday"": true,
            ""sunday"": true
        },
        ""time"": [""morning"", ""night""]
    }
    "

  /** The routine prompt: the profile block and the serialised products
      embedded in the fixed text. */
  function RoutinePrompt(profile: string, products: string): (p: string)
    ensures OccursAt(p, profile, |RoutineIntro|)
    ensures OccursAt(p, products, |RoutineIntro| + |profile| + |ProductsHeading|)
    ensures StartsWith(p, RoutineIntro) && EndsWith(p, RoutineInstructions)
  {
    var p := RoutineIntro + profile + ProductsHeading + products + RoutineInstructions;
    assert p[|RoutineIntro|..|RoutineIntro| + |profile|] == profile;
    var at := |RoutineIntro| + |profile| + |ProductsHeading|;
    assert p[at..at + |products|] == products;
    FiveParts(RoutineIntro, profile, ProductsHeading, products, RoutineInstructions);
    p
  }

  /** The first and the last of five joined texts are its ends. */
  lemma FiveParts(a: string, b: string, c: string, d: string, e: string)
    ensures StartsWith(a + b + c + d + e, a) && EndsWith(a + b + c + d + e, e)
  {
    var p := a + b + c + d + e;
    assert p[..|a|] == a;
    assert p[|p| - |e|..] == e;
  }

  // ------------------------------------------------------------- the reply

  const RoutineFailure: string := "Failed to create skincare routine"

  /** The try block of get_routine_for_user after the model call: strip the
      fence, refuse an empty text, parse. Every failure, the parser's
      included, becomes HTTPException 500 with the fixed detail. */
  function ParseRoutineReply(codec: Codec, reply: Option<string>): (r: Result<Value, Raised>)
    ensures r.Err? ==> r.error == HttpException(500, RoutineFailure)
    ensures r.Ok? <==> reply.Some? && StripJsonFence(reply.value) != []
                       && codec.loads(StripJsonFence(reply.value)).Ok?
    ensures r.Ok? ==> codec.loads(StripJsonFence(reply.value)) == Ok(r.value)
    ensures reply.Some? && Strip(reply.value) == [] ==> r.Err?
  {
    match reply
    case None => Err(HttpException(500, RoutineFailure))
    case Some(text) =>
      var raw := StripJsonFence(text);
      if raw == [] then Err(HttpException(500, RoutineFailure))
      else match codec.loads(raw)
        case Ok(v) => Ok(v)
        case Err(_) => Err(HttpException(500, RoutineFailure))
  }

  /** A JSON body fenced as ```json ... ``` parses exactly as the bare body. */
  lemma FencedReplyParsesBody(codec: Codec, body: string)
    requires FenceableBody(body)
    ensures ParseRoutineReply(codec, Some("```json\n" + body + "\n```"))
         == ParseRoutineReply(codec, Some(body))
  {
    TaggedFenceRoundTrip(body);
    StripOfTrimmed(body);
    assert !StartsWith(body, Fence) by {
      if |body| >= 3 {
        assert body[..3][0] == body[0];
      }
    }
  }

  /** The try block of get_routine_for_user: build the prompt around the
      serialised products, ask the model, parse its reply. A missing client
      fails inside the block, so it too becomes the fixed 500. */
  function AskForRoutine(model: Option<Model>, codec: Codec, form: FormData, products: string)
    : (r: Result<Value, Raised>)
    ensures r.Err? ==> r.error == HttpException(500, RoutineFailure)
    ensures model.None? ==> r.Err?
  {
    if model.None? then Err(HttpException(500, RoutineFailure))
    else ParseRoutineReply(codec, model.value(RoutinePrompt(UserProfile(form), products)))
  }

  /** get_routine_for_user. The products are sanitised and serialised before
      the try block, so a TypeError from json.dumps escapes unconverted. */
  function GetRoutineForUser(model: Option<Model>, codec: Codec, iso: int -> string,
                             form: FormData, recs: Value): (r: Result<Value, Raised>)
    ensures r.Err? ==> r.error == HttpException(500, RoutineFailure)
                       || (r.error.PyException? && r.error.kind == "TypeError" && !NoObjectId(recs))
    ensures model.None? && NoObjectId(recs) ==> r == Err(HttpException(500, RoutineFailure))
    ensures r.Ok? ==> model.Some? && NoObjectId(recs)
    ensures NoObjectId(recs) ==> r == AskForRoutine(model, codec, form, codec.render(Sanitize(recs, iso)))
  {
    var sanitized := Sanitize(recs, iso);
    SanitizedSerializable(recs, iso);
    match Dumps(codec, sanitized)
    case Err(e) => Err(e)
    case Ok(products) => AskForRoutine(model, codec, form, products)
  }

  // ------------------------------------------------------------ normaliser

  const RequiredFields: seq<string> :=
    ["name", "tag", "description", "instructions", "duration", "waiting_time", "days", "time"]

  const Weekdays: seq<string> :=
    ["monday", "tuesday", "wednesday", "thursday", "friday", "saturday", "sunday"]

  /** The step collection: the value under "routine" when present (even when
      "skincare_routine" is present too), else under "skincare_routine",
      else the reply dict itself. */
  function ChosenCollection(routine: Entries): (c: Value)
    ensures HasKey(routine, "routine") ==> Some(c) == Get(routine, "routine")
    ensures !HasKey(routine, "routine") && HasKey(routine, "skincare_routine")
            ==> Some(c) == Get(routine, "skincare_routine")
    ensures !HasKey(routine, "routine") && !HasKey(routine, "skincare_routine")
            ==> c == Obj(routine)
  {
    if HasKey(routine, "routine") then Get(routine, "routine").value
    else if HasKey(routine, "skincare_routine") then Get(routine, "skincare_routine").value
    else Obj(routine)
  }

  /** The value written for a missing required field of the step under
      `category`, when `stepsSoFar` steps have already been collected. */
  function DefaultFor(field: string, category: string, stepsSoFar: nat): Value
    requires field in RequiredFields
  {
    if field == "name" then Str("Step " + NatToString(stepsSoFar + 1))
    else if field == "tag" then Str(Title(Replace(category, "_", " ")))
    else if field == "description" then Str("Apply " + Replace(category, "_", " "))
    else if field == "instructions" then Arr([Str("Apply as directed")])
    else if field == "duration" then Int(30)
    else if field == "waiting_time" then Int(300)
    else if field == "days" then Obj(seq(7, i requires 0 <= i < 7 => (Weekdays[i], Bool(true))))
    else Arr([Str("morning")])
  }

  /** Walk `todo` in order and assign the default of every field the step
      does not hold yet. Existing entries keep their place and value. */
  function AddDefaults(fields: Entries, todo: seq<string>, category: string, stepsSoFar: nat): (r: Entries)
    requires forall f :: f in todo ==> f in RequiredFields
    ensures |fields| <= |r| && r[..|fields|] == fields
    decreases |todo|
  {
    if todo == [] then fields
    else
      var next := if HasKey(fields, todo[0]) then fields
                  else Set(fields, todo[0], DefaultFor(todo[0], category, stepsSoFar));
      var r := AddDefaults(next, todo[1..], category, stepsSoFar);
      assert r[..|fields|] == fields by {
        if !HasKey(fields, todo[0]) {
          SetNewKey(fields, todo[0], DefaultFor(todo[0], category, stepsSoFar));
        }
        assert r[..|fields|] == r[..|next|][..|fields|];
      }
      r
  }

  /** A step with every required field filled in. */
  function Completed(fields: Entries, category: string, stepsSoFar: nat): Entries
  {
    AddDefaults(fields, RequiredFields, category, stepsSoFar)
  }

  /** What a field holds after the defaults are added: its own value when
      present, the default when it is a missing required field, nothing
      otherwise. */
  lemma {:induction false} AddDefaultsGet(fields: Entries, todo: seq<string>, category: string,
                                          stepsSoFar: nat, x: string)
    requires forall f :: f in todo ==> f in RequiredFields
    ensures Get(AddDefaults(fields, todo, category, stepsSoFar), x)
         == if HasKey(fields, x) then Get(fields, x)
            else if x in todo then Some(DefaultFor(x, category, stepsSoFar))
            else None
    decreases |todo|
  {
    if todo != [] {
      var next := if HasKey(fields, todo[0]) then fields
                  else Set(fields, todo[0], DefaultFor(todo[0], category, stepsSoFar));
      AddDefaultsGet(next, todo[1..], category, stepsSoFar, x);
      assert x in todo <==> x == todo[0] || x in todo[1..];
    }
  }

  /** Every required field is present after completion, and present fields
      are untouched. */
  lemma CompletedGet(fields: Entries, category: string, stepsSoFar: nat, x: string)
    ensures Get(Completed(fields, category, stepsSoFar), x)
         == if HasKey(fields, x) then Get(fields, x)
            else if x in RequiredFields then Some(DefaultFor(x, category, stepsSoFar))
            else None
  {
    AddDefaultsGet(fields, RequiredFields, category, stepsSoFar, x);
  }

  /** The inner loop of create_routine: for each required field, in order,
      write its default into the step when it is missing. */
  method FillDefaults(stepData: Entries, category: string, stepsSoFar: nat) returns (filled: Entries)
    ensures filled == Completed(stepData, category, stepsSoFar)
  {
    filled := stepData;
    for j := 0 to |RequiredFields|
      invariant AddDefaults(filled, RequiredFields[j..], category, stepsSoFar)
             == Completed(stepData, category, stepsSoFar)
    {
      var field := RequiredFields[j];
      assert RequiredFields[j..][1..] == RequiredFields[j + 1..];
      if !HasKey(filled, field) {
        filled := Set(filled, field, DefaultFor(field, category, stepsSoFar));
      }
    }
  }

  /** The dict-valued entries of the collection, in iteration order. */
  function DictEntries(e: Entries): (d: seq<(string, Entries)>)
    ensures |d| <= |e|
  {
    if e == [] then []
    else
      var rest := DictEntries(e[..|e| - 1]);
      var last := e[|e| - 1];
      if last.1.Obj? then rest + [(last.0, last.1.entries)] else rest
  }

  /** The steps made from a run of dict-valued entries by `complete`, the
      i-th one numbered as if i steps came before it. */
  function Steps(d: seq<(string, Entries)>, complete: (Entries, string, nat) -> Entries): (steps: seq<Value>)
    ensures |steps| == |d|
    ensures forall i :: 0 <= i < |steps| ==> steps[i].Obj?
  {
    if d == [] then []
    else
      var last := d[|d| - 1];
      Steps(d[..|d| - 1], complete) + [Obj(complete(last.1, last.0, |d| - 1))]
  }

  lemma {:induction false} StepsIndex(d: seq<(string, Entries)>, complete: (Entries, string, nat) -> Entries, i: nat)
    requires i < |d|
    ensures Steps(d, complete)[i] == Obj(complete(d[i].1, d[i].0, i))
    decreases |d|
  {
    if i < |d| - 1 {
      StepsIndex(d[..|d| - 1], complete, i);
    }
  }

  lemma StepsSnoc(d: seq<(string, Entries)>, complete: (Entries, string, nat) -> Entries, x: (string, Entries))
    ensures Steps(d + [x], complete) == Steps(d, complete) + [Obj(complete(x.1, x.0, |d|))]
  {
    assert (d + [x])[..|d|] == d;
  }

  /** The steps of a collection: its dict-valued entries, completed. */
  function NormalizedSteps(e: Entries): (steps: seq<Value>)
    ensures |steps| == |DictEntries(e)|
  {
    Steps(DictEntries(e), Completed)
  }

  /** Appending one entry to the collection appends it to the dict-valued
      entries when it is a dict, and changes nothing otherwise. */
  lemma DictEntriesSnoc(e: Entries, category: string, v: Value)
    ensures DictEntries(e + [(category, v)])
         == if v.Obj? then DictEntries(e) + [(category, v.entries)] else DictEntries(e)
  {
    var e' := e + [(category, v)];
    assert e'[..|e'| - 1] == e;
  }

  /** The outer loop of create_routine: every dict-valued entry is completed
      and appended; any other entry is skipped. */
  method NormalizeEntries(routineData: Entries) returns (routineList: seq<Value>)
    ensures routineList == NormalizedSteps(routineData)
  {
    routineList := [];
    var i := 0;
    while i < |routineData|
      invariant 0 <= i <= |routineData|
      invariant routineList == Steps(DictEntries(routineData[..i]), Completed)
    {
      var (category, stepData) := routineData[i];
      assert routineData[..i + 1] == routineData[..i] + [(category, stepData)];
      DictEntriesSnoc(routineData[..i], category, stepData);
      ghost var d := DictEntries(routineData[..i]);
      if stepData.Obj? {
        var filled := FillDefaults(stepData.entries, category, |routineList|);
        StepsSnoc(d, Completed, (category, stepData.entries));
        assert Steps(d + [(category, stepData.entries)], Completed) == routineList + [Obj(filled)];
        routineList := routineList + [Obj(filled)];
      }
      assert DictEntries(routineData[..i + 1]) == if stepData.Obj? then d + [(category, stepData.entries)] else d;
      i := i + 1;
    }
    assert routineData[..i] == routineData;
  }

  /** Filtering commutes with concatenation. */
  lemma {:induction false} DictEntriesAppend(a: Entries, b: Entries)
    ensures DictEntries(a + b) == DictEntries(a) + DictEntries(b)
    decreases |b|
  {
    if b == [] {
      assert a + b == a;
    } else {
      assert (a + b)[..|a + b| - 1] == a + b[..|b| - 1];
      assert (a + b)[|a + b| - 1] == b[|b| - 1];
      DictEntriesAppend(a, b[..|b| - 1]);
    }
  }

  /** An entry that is not a dict is dropped, and its siblings come out as
      if it were not there (numbering included). */
  lemma NonDictDropped(a: Entries, category: string, x: Value, b: Entries)
    requires !x.Obj?
    ensures NormalizedSteps(a + [(category, x)] + b) == NormalizedSteps(a + b)
  {
    DictEntriesAppend(a + [(category, x)], b);
    DictEntriesAppend(a, [(category, x)]);
    assert [(category, x)][..0] == [];
    DictEntriesAppend(a, b);
  }

  /** The collected entries are exactly the dict-valued ones. */
  lemma {:induction false} DictEntriesExact(e: Entries, category: string, d: Entries)
    ensures (category, d) in DictEntries(e) <==> (category, Obj(d)) in e
    decreases |e|
  {
    if e != [] {
      DictEntriesExact(e[..|e| - 1], category, d);
      assert e == e[..|e| - 1] + [e[|e| - 1]];
      assert (category, Obj(d)) in e <==> (category, Obj(d)) in e[..|e| - 1] || e[|e| - 1] == (category, Obj(d));
    }
  }

  /** The i-th step: the fields of the i-th dict-valued entry stay as they
      were, every missing required field gets its default (the name being
      "Step i+1"), and no other field appears. */
  lemma StepAt(e: Entries, i: nat, x: string)
    requires i < |DictEntries(e)|
    ensures var step := DictEntries(e)[i];
      NormalizedSteps(e)[i].Obj?
      && Get(NormalizedSteps(e)[i].entries, x)
         == if HasKey(step.1, x) then Get(step.1, x)
            else if x in RequiredFields then Some(DefaultFor(x, step.0, i))
            else None
  {
    var step := DictEntries(e)[i];
    StepsIndex(DictEntries(e), Completed, i);
    CompletedGet(step.1, step.0, i, x);
  }

  /** Every step holds all eight RoutineStep fields. */
  lemma StepsHaveRequiredFields(e: Entries, i: nat, f: string)
    requires i < |NormalizedSteps(e)| && f in RequiredFields
    ensures HasKey(NormalizedSteps(e)[i].entries, f)
  {
    StepAt(e, i, f);
  }

  /** A missing name is filled with "Step k", k counting the steps collected
      so far including this one. */
  lemma MissingNameNumbered(e: Entries, i: nat)
    requires i < |DictEntries(e)| && !HasKey(DictEntries(e)[i].1, "name")
    ensures Get(NormalizedSteps(e)[i].entries, "name") == Some(Str("Step " + NatToString(i + 1)))
  {
    StepAt(e, i, "name");
  }

  // ---------------------------------------------------------- create_routine

  /** The response body: {"product_type": "custom", "routine": steps}. */
  function RoutineResponse(steps: seq<Value>): Value
  {
    Obj([("product_type", Str("custom")), ("routine", Arr(steps))])
  }

  /** The exception create_routine reports: a 500 whose detail is the fixed
      prefix followed by str() of what was raised. */
  function Failure(e: Raised): Raised
  {
    HttpException(500, RoutineFailure + ": " + ErrorText(e))
  }

  /** What create_routine returns or raises. `form` is the outcome of
      validating data["form_data"] as FormData (its error text on failure);
      `data` is the request dict. Every failure is a 500 with the fixed
      prefix, and a success is a routine response. */
  function CreatedRoutine(model: Option<Model>, codec: Codec, iso: int -> string,
                          form: Result<FormData, string>, data: Entries): (r: Result<Value, Raised>)
    ensures r.Err? ==> r.error.HttpException? && r.error.status == 500
                       && StartsWith(r.error.detail, RoutineFailure + ": ")
    ensures r.Ok? ==> exists steps :: r.value == RoutineResponse(steps)
    ensures form.Err? ==> r == Err(Failure(PyException("ValidationError", form.error)))
    ensures var recs := GetOr(data, "product_recommendations", Obj([]));
      form.Ok? && !Truthy(recs) ==>
        r == Err(Failure(HttpException(400, "No product recommendations provided")))
  {
    if form.Err? then Err(Failure(PyException("ValidationError", form.error)))
    else
      var recs := GetOr(data, "product_recommendations", Obj([]));
      if !Truthy(recs) then Err(Failure(HttpException(400, "No product recommendations provided")))
      else RoutineFromReply(GetRoutineForUser(model, codec, iso, form.value, recs))
  }

  /** What create_routine makes of the routine read from the model: a dict
      routine gives its chosen collection's steps completed with the
      defaults, a list its items, anything else itself as the one step. */
  function RoutineFromReply(reply: Result<Value, Raised>): (r: Result<Value, Raised>)
    ensures r.Err? ==> r.error.HttpException? && r.error.status == 500
                       && StartsWith(r.error.detail, RoutineFailure + ": ")
    ensures r.Ok? ==> exists steps :: r.value == RoutineResponse(steps)
    ensures reply.Err? ==> r == Err(Failure(reply.error))
  {
    match reply
    case Err(e) => Err(Failure(e))
    case Ok(routine) =>
      if routine.Obj? then
        var c := ChosenCollection(routine.entries);
        if c.Obj? then Ok(RoutineResponse(NormalizedSteps(c.entries)))
        else Err(Failure(PyException("AttributeError",
                                     "'" + TypeName(c) + "' object has no attribute 'items'")))
      else if routine.Arr? then Ok(RoutineResponse(routine.items))
      else Ok(RoutineResponse([routine]))
  }

  /** create_routine: the routine is read from the model's reply and each
      step of a dict routine is completed with the defaults. */
  method CreateRoutine(model: Option<Model>, codec: Codec, iso: int -> string,
                       form: Result<FormData, string>, data: Entries)
    returns (r: Result<Value, Raised>)
    ensures r == CreatedRoutine(model, codec, iso, form, data)
    ensures r.Err? ==> r.error.HttpException? && r.error.status == 500
                       && StartsWith(r.error.detail, RoutineFailure + ": ")
    ensures r.Ok? ==> exists steps :: r.value == RoutineResponse(steps)
    ensures form.Err? ==> r == Err(Failure(PyException("ValidationError", form.error)))
    ensures var recs := GetOr(data, "product_recommendations", Obj([]));
      form.Ok? && !Truthy(recs) ==>
        r == Err(Failure(HttpException(400, "No product recommendations provided")))
    ensures var recs := GetOr(data, "product_recommendations", Obj([]));
      form.Ok? && Truthy(recs) ==>
        match GetRoutineForUser(model, codec, iso, form.value, recs)
        case Err(e) => r == Err(Failure(e))
        case Ok(routine) =>
          if routine.Obj? then
            var c := ChosenCollection(routine.entries);
            if c.Obj? then r == Ok(RoutineResponse(NormalizedSteps(c.entries)))
            else r == Err(Failure(PyException("AttributeError",
                                    "'" + TypeName(c) + "' object has no attribute 'items'")))
          else if routine.Arr? then r == Ok(RoutineResponse(routine.items))
          else r == Ok(RoutineResponse([routine]))
  {
    if form.Err? {
      return Err(Failure(PyException("ValidationError", form.error)));
    }
    var recs := GetOr(data, "product_recommendations", Obj([]));
    if !Truthy(recs) {
      return Err(Failure(HttpException(400, "No product recommendations provided")));
    }
    var reply := GetRoutineForUser(model, codec, iso, form.value, recs);
    if reply.Err? {
      return Err(Failure(reply.error));
    }
    var routine := reply.value;
    var routineList: seq<Value>;
    if routine.Obj? {
      var routineData := ChosenCollection(routine.entries);
      if !routineData.Obj? {
        return Err(Failure(PyException("AttributeError",
                             "'" + TypeName(routineData) + "' object has no attribute 'items'")));
      }
      routineList := NormalizeEntries(routineData.entries);
    } else if routine.Arr? {
      routineList := routine.items;
    } else {
      routineList := [routine];
    }
    return Ok(RoutineResponse(routineList));
  }
}
