# Seraface AI Server — a verified model of its core

Seraface is a FastAPI back end for a four-phase skincare pipeline.

1. The user submits a questionnaire (skin type, conditions, budget, allergies, product experiences, goals).
2. The user uploads a face photo, and a Gemini model returns a structured skin analysis.
3. A budget is split into product categories, and the model recommends products per category. Each product is looked up in a SerpAPI-backed MongoDB cache.
4. The model writes a step-by-step routine, and the server normalises it into `RoutineStep` records.

Each phase's result is stored per session in its own MongoDB collection. A status route reports progress and names the next phase.

This project models that core in Dafny.

**Modelling choices**
- Python values are `Json.Value`. Dicts are entry sequences in insertion order.
- Strings are `seq<char>`. A fence is the markdown code-fence marker of three backticks.
- `str.strip`, `split`, `join`, `replace`, `find`, `lower` and `title` are written out in `Text`.
- The generative model, `json.loads`/`json.dumps`, SerpAPI, `float()`, `datetime.isoformat`, the uuid and the clock are parameters: function-typed oracles or plain values.
- Objects whose methods update their fields in place are classes:
  - `DataStore`, whose four phase collections form one map from collection name to documents;
  - the product and product-search collections;
  - the two in-memory form lists.

**Modules**
- `Wrappers`: `Option`, `Result`, and the raised exceptions (`HttpException(status, detail)`, `PyException(kind, message)`).
- `Text`: Python string operations. `Json`: values, dict access, truthiness, `json.dumps` serialisability.
- `Forms`: the phase 1 questionnaire.
- `Fences`: stripping markdown fences from a model reply.
- `RoutineCreation`: `routine_creation_service.py`.
- `ProductRecommendation`: `product_recommendation_service.py`.
- `ProductSearch`: `product_search_service.py`.
- `ImageAnalysis`: `image_analysis_service.py`.
- `Phase3Api`: `api/phase3.py`.
- `SessionStore`: `connection_logic.py`.
- `SkincareRouter`: `routers/skincare.py`.
- `ProductService`: `product_service.py`.
- `FormProcessing`: `form_processing_service.py`.
- `Phase1Api`: `api/phase1.py`.

`create_routine` turns a step collection that is not a dict into a 500: calling `.items()` on it raises `AttributeError`, and the blanket handler reports it. The model follows the code.

## Model

| member | source | states |
|---|---|---|
| RoutineCreation.Sanitize | app/services/routine_creation_service.py:42-51 | The result holds no datetime. A datetime becomes its ISO text. A list becomes, item by item in place, the sanitised items. A dict keeps its keys in order, each with its sanitised value. Any other value is returned unchanged. |
| RoutineCreation.SanitizeTimeless | app/services/routine_creation_service.py:42-51 | A value with no datetime inside is returned unchanged. |
| RoutineCreation.SanitizeIdempotent | app/services/routine_creation_service.py:42-51 | Sanitising a sanitised value changes nothing. |
| RoutineCreation.SanitizedSerializable | app/services/routine_creation_service.py:42-51 | After sanitising, `json.dumps` succeeds exactly when the value holds no ObjectId. |
| RoutineCreation.RoutinePrompt | app/services/routine_creation_service.py:59-131 | The prompt opens with the fixed introduction and closes with the full instruction list and the worked cleanser and moisturizer example. The user profile and the serialised products sit at their fixed positions between them. |
| RoutineCreation.ParseRoutineReply | app/services/routine_creation_service.py:138-155 | Every failure is the fixed 500 "Failed to create skincare routine". Success means the reply exists, its fence-stripped text is non-empty and it parses; the result is that parse. A blank reply fails. |
| RoutineCreation.FencedReplyParsesBody | app/services/routine_creation_service.py:138-150 | A body wrapped in a fence tagged json parses exactly like the bare body. |
| RoutineCreation.AskForRoutine | app/services/routine_creation_service.py:133-155 | Every error is the fixed 500. With no model, the call fails. |
| RoutineCreation.GetRoutineForUser | app/services/routine_creation_service.py:53-155 | Without an ObjectId, the result is the model call on the sanitised, serialised products. With no model, it is the fixed 500. The only other error is the `json.dumps` TypeError on an ObjectId. |
| RoutineCreation.ChosenCollection | app/services/routine_creation_service.py:175-183 | The value under "routine" wins, even when "skincare_routine" is also present. Next comes "skincare_routine". Otherwise the whole dict is used. |
| RoutineCreation.AddDefaults | app/services/routine_creation_service.py:190-211 | Assigning defaults keeps every existing entry, in place and in order. |
| RoutineCreation.AddDefaultsGet | app/services/routine_creation_service.py:190-211 | After the loop, a field holds its own value when present, else its default when it is in the to-do list, else nothing. |
| RoutineCreation.CompletedGet | app/services/routine_creation_service.py:189-211 | A completed step holds its present fields unchanged and the default for every other required field. |
| RoutineCreation.FillDefaults | app/services/routine_creation_service.py:189-211 | The in-place loop over the eight required fields yields the completed step. |
| RoutineCreation.Steps | app/services/routine_creation_service.py:186-213 | One dict step per collected entry. |
| RoutineCreation.StepsIndex | app/services/routine_creation_service.py:186-213 | Step i is entry i completed with i steps already appended, so a default name is "Step i+1". |
| RoutineCreation.StepsSnoc | app/services/routine_creation_service.py:213 | Appending an entry appends exactly its completed step. |
| RoutineCreation.NormalizedSteps | app/services/routine_creation_service.py:186-216 | There are as many steps as dict-valued entries. |
| RoutineCreation.DictEntriesSnoc | app/services/routine_creation_service.py:187-216 | A dict entry is collected and any other entry is skipped. |
| RoutineCreation.NormalizeEntries | app/services/routine_creation_service.py:172-216 | The loop over the collection returns exactly the normalised steps. |
| RoutineCreation.DictEntriesAppend | app/services/routine_creation_service.py:186-216 | Collecting commutes with concatenation, so the iteration order is kept. |
| RoutineCreation.NonDictDropped | app/services/routine_creation_service.py:215-216 | Removing a non-dict entry leaves the steps unchanged. Its siblings are kept. |
| RoutineCreation.DictEntriesExact | app/services/routine_creation_service.py:186-187 | An entry is collected iff the collection maps its category to a dict. |
| RoutineCreation.StepAt | app/services/routine_creation_service.py:189-213 | Step i keeps entry i's present fields and takes the documented default for each missing required field. |
| RoutineCreation.StepsHaveRequiredFields | app/services/routine_creation_service.py:189-211 | Every step holds all eight RoutineStep fields. |
| RoutineCreation.MissingNameNumbered | app/services/routine_creation_service.py:193-194 | A missing name becomes "Step k", where k is one more than the number of steps already appended. |
| RoutineCreation.CreatedRoutine | app/services/routine_creation_service.py:157-228 | Every failure is a 500 starting "Failed to create skincare routine: ", and a success is `{"product_type": "custom", "routine": steps}`. An invalid form gives the rewrapped ValidationError. A valid form with falsy recommendations gives the rewrapped 400. |
| RoutineCreation.RoutineFromReply | app/services/routine_creation_service.py:171-228 | Whatever the model gave, every failure is a 500 starting "Failed to create skincare routine: ", and a success is a routine response. A failed model call is rewrapped with that prefix. |
| RoutineCreation.CreateRoutine | app/services/routine_creation_service.py:157-228 | The method's outcome is CreatedRoutine's. Every error is a 500 starting "Failed to create skincare routine: ". This includes an invalid form, empty recommendations (the 400 is rewrapped) and a failed model call. The collection choice, the list pass-through and the one-element wrap are as in the code. Success is `{"product_type": "custom", "routine": steps}`. |
| Fences.StripJsonFence | app/services/routine_creation_service.py:138-143 | The result is trimmed. A reply that does not open with a fence is only trimmed. |
| Fences.TaggedFenceRoundTrip | app/services/routine_creation_service.py:140-143 | Stripping a reply that wraps the body in a fence tagged json, one line each side, gives back the trimmed body. |
| Fences.UntaggedFenceRoundTrip | app/services/routine_creation_service.py:140-143 | Stripping a reply that wraps the body in an untagged fence, one line each side, gives back the body. |
| Fences.StripTicks | app/services/routine_creation_service.py:141 | `strip("`")` removes exactly the surrounding backtick runs. |
| Fences.DropJsonTag | app/services/routine_creation_service.py:142-143 | Dropping the four-character "json" tag and trimming leaves the body. |
| Fences.ReplaceFenceIsRemoval | app/services/product_recommendation_service.py:151 | Replacing every fence by "" is the untagged fence removal. |
| Fences.RemoveFencesGone | api/phase3.py:111 | After removing fences, no fence remains. |
| Fences.RemoveFencesNoTicks | api/phase3.py:111 | Text without backticks is unchanged. |
| Fences.RemoveFencesPrefix | api/phase3.py:111 | A backtick-free prefix is kept as is. |
| Fences.RemoveTaggedFence | api/phase3.py:111 | A fence and the letters directly after it are removed together. |
| Fences.RemoveFenceAt | api/phase3.py:111 | Removal at a fence resumes after the fence and its tag. |
| Forms.AllGoals | app/services/routine_creation_service.py:65 | The goals, followed by the custom goal when it is truthy. |
| Forms.GoalsTextMentions | app/services/routine_creation_service.py:65 | The joined goals text mentions every goal, and the custom goal when it is truthy. |
| Forms.ExperienceListMentions | app/services/routine_creation_service.py:64 | The rendered list holds the repr of every "product (experience)" label, escapes included. When repr shows a label unchanged, the list holds the label itself. |
| Forms.ReprShowsPlain | app/services/routine_creation_service.py:64 | A text that repr shows unchanged sits right after the opening quote. |
| Forms.ReprStr | app/services/product_recommendation_service.py:36 | `repr` of a string puts the chosen quote on each side: `"` when the text holds `'` but no `"`, else `'`. A plain text appears unchanged between them. |
| Forms.Escape | app/services/product_recommendation_service.py:36 | Escaping never shortens the text, and a text with nothing to escape is unchanged. |
| Forms.EscapeRoundTrip | app/services/product_recommendation_service.py:36 | Reading back the escapes of any text gives the text. |
| Forms.EscapeCharRead | app/services/product_recommendation_service.py:36 | One escaped character reads back as itself, whatever follows it. |
| Forms.ReprRoundTrip | app/services/product_recommendation_service.py:36 | The inside of any repr reads back as the text, so repr loses nothing. |
| ProductRecommendation.TierCategories | app/services/product_recommendation_service.py:38-48 | A budget under 15 gets 3 categories, under 30 gets 4, under 60 gets 6, otherwise 11. Each tier is a prefix of the full list. |
| ProductRecommendation.TierMonotone | app/services/product_recommendation_service.py:38-48 | A larger budget never loses a category: the smaller tier is a prefix of the larger. |
| ProductRecommendation.CleanBudget | app/services/product_recommendation_service.py:36 | The cleaned budget holds no "$" and is trimmed. |
| ProductRecommendation.DollarIgnored | app/services/product_recommendation_service.py:36 | "$25" and "25" clean to the same text, so they select the same tier. |
| ProductRecommendation.BudgetPromptNamesCategories | app/services/product_recommendation_service.py:50-55 | The budget prompt names every allowed category. |
| ProductRecommendation.GetBudgetAllocation | app/services/product_recommendation_service.py:26-88 | An unconvertible budget raises ValueError before the model call. Its message quotes the cleaned budget through repr, escapes included. Otherwise every error is the fixed 500 "Failed to allocate budget". Success is the parse of the fence-stripped reply to the tier's prompt. |
| ProductRecommendation.LastFenceLine | app/services/product_recommendation_service.py:144-148 | The last line in range that trims to a bare fence, or the line count when there is none. |
| ProductRecommendation.FindClosingFence | app/services/product_recommendation_service.py:144-148 | The backward scan finds exactly that line. |
| ProductRecommendation.CleanReplyText | app/services/product_recommendation_service.py:141-151 | The cleaned reply holds no fence and is trimmed. The cut is the source's: the closing-fence scan reaches down to line 0. |
| ProductRecommendation.CleanFencedReply | app/services/product_recommendation_service.py:141-151 | The imperative cleaning, scanning back to line 0 and slicing empty when the end is before the start, equals the cleaning function: no fence remains and the text is trimmed. |
| ProductRecommendation.FencedLines | app/services/product_recommendation_service.py:142 | Splitting a fenced reply gives the opener, the body's lines and the closer. |
| ProductRecommendation.FencedReplyRoundTrip | app/services/product_recommendation_service.py:141-151 | A fenced reply with any tag cleans to its trimmed body. |
| ProductRecommendation.FencedCut | app/services/product_recommendation_service.py:141-149 | For a closed fence, both the source's cut and the corrected cut give the trimmed body. |
| ProductRecommendation.ExtractBracketed | app/services/product_recommendation_service.py:153-157 | Text that is already bracketed is kept as is. |
| ProductRecommendation.BracketSpanFound | app/services/product_recommendation_service.py:155 | A match exists iff there is a "[" with a "]" somewhere after it. |
| ProductRecommendation.BracketSpanShape | app/services/product_recommendation_service.py:155 | The match starts at the first "[", ends at the next "]", and holds no "]" in between. |
| ProductRecommendation.ExtractBracketedShape | app/services/product_recommendation_service.py:153-157 | Unbracketed text changes iff a bracket span exists. |
| ProductRecommendation.ExtractSurrounded | app/services/product_recommendation_service.py:153-157 | Text around one bracketed span reduces to that span. |
| ProductRecommendation.SurroundedSpan | app/services/product_recommendation_service.py:153-157 | Such text is not bracketed, and its first "[" and next "]" delimit the span. |
| ProductRecommendation.ExtractAt | app/services/product_recommendation_service.py:155-157 | Extraction returns the slice from the first "[" to the next "]". |
| ProductRecommendation.GetProductRecommendations | app/services/product_recommendation_service.py:134-165 | Every error is the 500 "Failed to get {category} recommendations". Success is the parse of the reply as the source cleans and extracts it. |
| ProductRecommendation.UnclosedFenceLost | app/services/product_recommendation_service.py:141-149 | A reply with an opener and no closer loses its body as written, and keeps it when corrected. |
| ProductRecommendation.UnclosedFenceCleansEmpty | app/services/product_recommendation_service.py:141-165 | Such a reply cleans, and extracts, to the empty text, so the parse the service attempts is of "". |
| ProductRecommendation.Remaining | app/services/product_recommendation_service.py:174 | The categories not current, as a sublist. |
| ProductRecommendation.FutureCategories | app/services/product_recommendation_service.py:169-174 | Exactly the fixed categories that are not current. |
| ProductRecommendation.RemainingAfterPrefix | app/services/product_recommendation_service.py:174 | Removing a prefix of a distinct list leaves its suffix, in order. |
| ProductRecommendation.FutureOfTier | app/services/product_recommendation_service.py:169-174 | The future categories of a tier are the rest of the fixed list, in order. |
| ProductRecommendation.AllCategoriesDistinct | app/services/product_recommendation_service.py:169-172 | The eleven categories are distinct. |
| ProductRecommendation.GetFutureRecommendations | app/services/product_recommendation_service.py:167-242 | With no future category, the result is [] and the model is not consulted. Otherwise every error is the fixed 500, and success is the parse of the reply as the source cleans it. |
| ProductRecommendation.NamedProducts | app/services/product_recommendation_service.py:260-265 | Only products with a non-empty name are kept, as a sublist. |
| ProductRecommendation.EnrichedProductFields | app/services/product_recommendation_service.py:284-302 | An entry carries the product and its category. `search_successful` is true iff details were found, and then the details are attached; otherwise `product_details` is None. |
| ProductRecommendation.EnrichedIsEnrichment | app/services/product_recommendation_service.py:284-302 | Every entry built is an enrichment of its product. |
| ProductRecommendation.NamedSnoc | app/services/product_recommendation_service.py:260-265 | The next product is kept iff it is named. |
| ProductRecommendation.EnrichedItemsSnoc | app/services/product_recommendation_service.py:260-305 | A named product adds one entry and an unnamed one adds none. |
| ProductRecommendation.FallbackProducts | app/services/product_recommendation_service.py:311-314 | The fallback succeeds iff every value can be iterated, and it keeps the category keys. |
| ProductRecommendation.Lookups | app/services/product_recommendation_service.py:260-265 | One lookup per named product, in order. |
| ProductRecommendation.DictPrefix | app/services/product_recommendation_service.py:258-262 | The leading dicts of a list, ending at the first item that is not one. |
| ProductRecommendation.EnrichedOf | app/services/product_recommendation_service.py:284-302 | One entry per lookup, built from what that lookup found. |
| ProductRecommendation.TraceSnoc | app/services/product_search_service.py:256-283 | One more lookup extends the run of stores, the results and the entries. |
| ProductRecommendation.TraceAppend | app/services/product_search_service.py:256-283 | Two runs of lookups, the second starting where the first ended, form one run from the first's start to the second's end. |
| ProductRecommendation.LookupsSnoc | app/services/product_recommendation_service.py:258-265 | The next product adds a lookup iff it is named. |
| ProductRecommendation.EnrichCategory | app/services/product_recommendation_service.py:258-305 | The inner loop succeeds iff every product is a dict. The store passes through one get_or_fetch_product step per named product among the leading dicts, in order: each returns the cache hit or the fetch, caches a fetched record and records the product for the session. A failing loop keeps the writes it made. On success, each entry is built from what its own lookup returned. |
| ProductRecommendation.EnrichProductsWithDetails | app/services/product_recommendation_service.py:244-314 | Well-formed input keeps the category keys, and each list holds the enrichments of its named products, each built from its lookup's result. Other input gives the fallback. Either way, the store goes from its old to its new state through the lookups of every category up to the first that cannot be enriched, in order, and those writes stay made. |
| ProductRecommendation.EnrichNextCategory | app/services/product_recommendation_service.py:257-309 | One turn of the category loop: the trace grows by the category's lookups. On failure, these are all the lookups the enrichment makes. On success, the enriched dict grows by the category. |
| ProductRecommendation.AllLookupsSnoc | app/services/product_recommendation_service.py:257-305 | After enrichable categories, the next category's lookups follow theirs. |
| ProductRecommendation.AllLookupsStop | app/services/product_recommendation_service.py:257-314 | After a category that cannot be enriched, no further lookup is made. |
| ProductRecommendation.Stopped | app/services/product_recommendation_service.py:257-314 | A category that cannot be enriched ends the lookups and makes the input not enrichable. |
| ProductRecommendation.TraceNextCategory | app/services/product_recommendation_service.py:257-305 | The run of lookups grows by one category's run. |
| ProductRecommendation.NextCategoryEnriched | app/services/product_recommendation_service.py:257-307 | Enriching a category extends the enriched prefix and the enriched dict by that category. |
| ProductRecommendation.EnrichedDictSnoc | app/services/product_recommendation_service.py:257-307 | The enriched dict grows by one category built from its lookups' results. |
| ProductRecommendation.PrefixEnrichable | app/services/product_recommendation_service.py:257-307 | The categories enriched so far are enrichable. |
| ProductRecommendation.NextCategoryIsNew | app/services/product_recommendation_service.py:257-307 | With distinct input keys, the next category is not yet in the output. |
| ProductRecommendation.EnrichedPrefixFull | app/services/product_recommendation_service.py:257-309 | When the loop ends, the output has the input's keys. |
| ProductRecommendation.TotalProductsSearched | app/services/product_recommendation_service.py:438 | The sum succeeds iff every value has a length. |
| ProductRecommendation.TotalAdditive | app/services/product_recommendation_service.py:438 | The total over two parts is the sum of their totals. |
| ProductRecommendation.NamedWithinTotal | app/services/product_recommendation_service.py:438 | The enriched products never outnumber the products searched. |
| ProductSearch.RemoveParens | app/services/product_search_service.py:56 | Removing parenthesised groups never lengthens the text. |
| ProductSearch.CleanProductQuery | app/services/product_search_service.py:51-74 | The cleaned query is trimmed and every whitespace run in it is a single space. |
| ProductSearch.CollapseWsSingle | app/services/product_search_service.py:72 | Collapsing leaves single spaces and keeps emptiness and a leading space. |
| ProductSearch.CleanQueryNormal | app/services/product_search_service.py:72 | The cleaned query is trimmed and single-spaced. |
| ProductSearch.RemoveParensNone | app/services/product_search_service.py:56 | Text without "(" is unchanged. |
| ProductSearch.CollapseWsSingleSpaced | app/services/product_search_service.py:72 | Single-spaced text is unchanged. |
| ProductSearch.RemovePhrasesAbsent | app/services/product_search_service.py:59-69 | Text holding none of the phrases is unchanged. |
| ProductSearch.CleanQueryOfClean | app/services/product_search_service.py:51-74 | A query with no "(", none of the six phrases, single spaces and no surrounding whitespace is returned unchanged. |
| ProductSearch.RemoveTrailingGroup | app/services/product_search_service.py:56 | "X (y)" becomes "X": the group goes with the whitespace before it. |
| ProductSearch.KeepFilled | app/services/product_search_service.py:191 | Exactly the entries whose value is not None, "" or [] are kept. |
| ProductSearch.BestDescription | app/services/product_search_service.py:182-186 | The description chosen is always truthy. |
| ProductSearch.FinalizeRecord | app/services/product_search_service.py:182-191 | The record holds the chosen description and no None, "" or [] value. |
| ProductSearch.FinalizeRecordGet | app/services/product_search_service.py:188-191 | Every other field survives iff it is filled. |
| ProductSearch.FetchProduct | app/services/product_search_service.py:76-198 | A non-string query gives None. A fetched record has a description and no empty value. |
| ProductSearch.SavedUnder | app/services/product_search_service.py:207-219 | The cache document replaces whatever the cache held under the query key. |
| ProductSearch.UserProductDocument | app/services/product_search_service.py:234-242 | The user document's _id is session_id + "_" + the query key. |
| ProductSearch.CacheDocumentFields | app/services/product_search_service.py:208-213 | Both _id and key equal the query key, cached_at is the save time, and every other field is the product's. |
| ProductSearch.SaveUnderQueryKey | app/services/product_search_service.py:207-219 | The save is an upsert under query.lower().strip(). |
| ProductSearch.KeepFilledGet | app/services/product_search_service.py:191 | A field survives the filter iff its value is filled. |
| ProductSearch.BuiltRecordFields | app/services/product_search_service.py:113-191 | A fetched record keeps the query and has no _id or key of its own. |
| ProductSearch.FetchedRecordCachedUnderKey | app/services/product_search_service.py:113-219 | A fetched record is cached under the key of the query it was fetched for. |
| ProductSearch.ProductSearchService.SearchProductInCache | app/services/product_search_service.py:31-49 | A hit iff a cached document matches the query key, and the hit is that document. |
| ProductSearch.ProductSearchService.SaveToProductsCache | app/services/product_search_service.py:200-225 | The cache is upserted, the user collection is untouched, and the result reports whether the save happened. |
| ProductSearch.ProductSearchService.SaveUserRecommendedProduct | app/services/product_search_service.py:227-254 | The user collection is upserted under session_id + "_" + key, the cache is untouched, and false means the query was missing. |
| ProductSearch.ProductSearchService.GetOrFetchProduct | app/services/product_search_service.py:256-283 | A hit returns a cached document matching the query key, with no fetch and no cache write. A miss returns the fetch and caches it only on success. The user collection is written only on success with a truthy session id and context. The result and both new collections are given as functions of the old ones. |
| ImageAnalysis.CleanResponse | app/services/image_analysis_service.py:25-30 | The corrected half of the line-27 finding, not the code as written: the cleaned reply holds no backtick and no curly quote, and is trimmed. The service uses `CleanResponseAsWritten`. |
| ImageAnalysis.CleanResponseIsStripped | app/services/image_analysis_service.py:27-29 | The two regex passes change nothing after line 27. |
| ImageAnalysis.StraightenQuotes | app/services/image_analysis_service.py:27 | No curly double quote or curly apostrophe remains. |
| ImageAnalysis.StraightenNone | app/services/image_analysis_service.py:27 | Text without curly quotes is unchanged. |
| ImageAnalysis.OpeningFenceRemoved | app/services/image_analysis_service.py:28 | A line-initial fence and its tag are removed. |
| ImageAnalysis.ClosingFenceRemoved | app/services/image_analysis_service.py:29 | A fence at a line end is removed with the whitespace after it. |
| ImageAnalysis.CleanFencedResponse | app/services/image_analysis_service.py:25-30 | As written, a fenced reply cleans to its trimmed tag and body, curly quotes kept, when neither holds the swallowed literal. |
| ImageAnalysis.CleanFencedResponseCorrected | app/services/image_analysis_service.py:25-30 | Corrected, a fenced reply cleans to its trimmed tag and body with the quotes straightened. |
| ImageAnalysis.ExtractObject | app/services/image_analysis_service.py:87 | A span exists iff some "{" comes before some "}". The span starts with "{" and ends with "}". |
| ImageAnalysis.ExtractObjectSplits | app/services/image_analysis_service.py:87 | The span runs from the first "{" to the last "}". |
| ImageAnalysis.ExtractObjectOf | app/services/image_analysis_service.py:87 | A braced object surrounded by brace-free text is what is extracted. |
| ImageAnalysis.ExtractStripped | app/services/image_analysis_service.py:85-87 | Trimming does not change the extracted object. |
| ImageAnalysis.FencedObjectExtracted | app/services/image_analysis_service.py:85-87 | As written, a fenced object reply yields the object as it stands, curly quotes included. |
| ImageAnalysis.AnalyzeFaceImage | app/services/image_analysis_service.py:83-93 | Every error is a 500 starting "Gemini parsing error: ". With no brace span, the error is the failed `.group()` on None. Success is the parse of the span of the reply cleaned as written, so curly quotes reach the parser. |
| ImageAnalysis.AnalyzeFencedReply | app/services/image_analysis_service.py:83-93 | A fenced object reply gives exactly the parse of the object as it stands, curly quotes included, or that parse's error as a 500. |
| ImageAnalysis.CleanResponseAsWritten | app/services/image_analysis_service.py:27-29 | As written, the result holds no backtick and is trimmed. |
| ImageAnalysis.CleanResponseAsWrittenIsStripped | app/services/image_analysis_service.py:27 | As written, line 27 replaces the swallowed literal and replaces "'" by itself. |
| ImageAnalysis.CurlyQuotesKept | app/services/image_analysis_service.py:27 | As written, a curly-quoted reply keeps its curly quotes. |
| ImageAnalysis.CurlyQuotesStraightened | app/services/image_analysis_service.py:27 | Corrected, the same reply comes out with straight quotes. |
| Phase3Api.PromptLayout | api/phase3.py:54-106 | The prompt opens with the profile block and closes with the skin analysis under its heading, the separator and the task. |
| Phase3Api.ExperienceTextMentions | api/phase3.py:55 | The experience text mentions every "product (experience)". |
| Phase3Api.ExperienceTextSingle | api/phase3.py:55 | One experience renders as "product (experience)". |
| Phase3Api.GoalLine | api/phase3.py:68-69 | The additional-goals line is empty iff custom_goal is falsy. |
| Phase3Api.AdditionalGoalsLine | api/phase3.py:57-69 | With a truthy custom goal, "- Additional goals: …" follows the profile block. |
| Phase3Api.CustomGoalChangesPrompt | api/phase3.py:54-106 | The prompt differs from the prompt without a custom goal iff the custom goal is truthy. |
| Phase3Api.ProfileMentionsExperience | api/phase3.py:57-67 | The profile names every product experience. |
| Phase3Api.PromptMentionsExperience | api/phase3.py:54-106 | The prompt names every product experience. |
| Phase3Api.ParseGeminiResponse | api/phase3.py:109-115 | Success is the parse of the fence-removed, trimmed text. Failure is a 500 "Failed to parse response: " plus the parse error. |
| Phase3Api.ParsedTextClean | api/phase3.py:111 | The text handed to the parser holds no fence and is trimmed. |
| Phase3Api.ParseFencedReply | api/phase3.py:109-115 | A fenced reply with any letter tag parses like its body. |
| Phase3Api.HandleReply | api/phase3.py:123-130 | Every error is a 500. A failed model call gives its message. Success is the parse. |
| Phase3Api.ParseErrorRewrapped | api/phase3.py:114-130 | A parse failure reaches the client rewrapped as "500: Failed to parse response: …". |
| Phase3Api.Phase3Recommend | api/phase3.py:118-130 | The model is asked with `BuildPrompt` of the form and the indented analysis. Every error is a 500. A failed model call gives its message. Success is exactly the `ParseGeminiResponse` of the reply. |
| Phase3Api.ErrorText500 | api/phase3.py:128-130 | `str()` of an HTTPException is "status: detail". |
| SessionStore.CollectionNameInjective | app/connection_logic.py:31-33 | Different phases have different collections. |
| SessionStore.LoadAfterSave | app/connection_logic.py:35-83 | Loading up to 90 days after a save returns the saved data and deletes nothing. |
| SessionStore.LoadAfterRetention | app/connection_logic.py:70-78 | Loading later than 90 days after a save returns None and deletes the document. |
| SessionStore.LoadAfterLoad | app/connection_logic.py:59-83 | A load's deletion never changes what another load at the same time returns. |
| SessionStore.SaveIsolated | app/connection_logic.py:41-51 | A save changes no other session and no other phase. |
| SessionStore.SaveMakesExist | app/connection_logic.py:93-101 | After a save to any phase, the session exists. |
| SessionStore.FlagsIndex | app/connection_logic.py:113-116 | Phase i's flag is whether its collection holds the session. |
| SessionStore.CountTruePositive | app/connection_logic.py:118-123 | The count is positive iff some flag is set. |
| SessionStore.CountTrueAll | app/connection_logic.py:118 | The count is the number of phases iff every flag is set. |
| SessionStore.StatusAgrees | app/connection_logic.py:93-128 | "exists" agrees with session_exists, and the count is 4 iff all four phases hold the session. |
| SessionStore.HeldPhases | app/connection_logic.py:150-155 | The phases that held the session, as a sublist. |
| SessionStore.RemovedHolds | app/connection_logic.py:150-152 | After removal, a document remains iff it was there and is not this session in a listed phase. |
| SessionStore.RemovedElsewhere | app/connection_logic.py:150-152 | Collections of unlisted phases are untouched. |
| SessionStore.DeleteSessionEffect | app/connection_logic.py:143-162 | After delete, the session is in no phase and other sessions are untouched. Nothing is deleted iff the session was in no phase. |
| SessionStore.HeldPhasesEmpty | app/connection_logic.py:150-161 | No phase is listed iff none held the session. |
| SessionStore.CleanCounts | app/connection_logic.py:202-207 | One count per phase. |
| SessionStore.CleanSnoc | app/connection_logic.py:202-208 | Cleaning one more phase cleans its collection and appends its count. |
| SessionStore.CleanedElsewhere | app/connection_logic.py:202-206 | Collections outside the list are untouched. |
| SessionStore.CleanedCollection | app/connection_logic.py:202-206 | Each listed collection keeps exactly its unexpired documents. |
| SessionStore.CleanupKeepsLoads | app/connection_logic.py:193-214 | Cleanup never changes what a later load returns. |
| SessionStore.CleanupLeavesNoExpired | app/connection_logic.py:204-206 | After cleanup, no remaining document is expired. |
| SessionStore.PhasesDistinct | app/connection_logic.py:97 | The four phases are distinct. |
| SessionStore.DataStore.constructor | app/connection_logic.py:24-25 | The store starts empty. |
| SessionStore.DataStore.SavePhaseData | app/connection_logic.py:35-57 | Upsert of the document by session id, expiring 90 days on. The result is true. |
| SessionStore.DataStore.LoadPhaseData | app/connection_logic.py:59-87 | Returns the load result and deletes an expired document. |
| SessionStore.DataStore.SessionExists | app/connection_logic.py:93-104 | True iff some phase collection holds the session. Expiry is not checked. |
| SessionStore.DataStore.GetSessionStatus | app/connection_logic.py:106-128 | Per-phase flags in phase order. The count is at most 4. "exists" iff the count is positive iff the session exists. Progress is count/4·100. |
| SessionStore.DataStore.DeleteSession | app/connection_logic.py:143-162 | The session is removed from all four collections. deleted_phases lists the phases that held it, in order. success iff something was deleted. |
| SessionStore.DataStore.CleanupExpiredSessions | app/connection_logic.py:193-214 | Expired documents are deleted from every phase. Per-phase counts are reported, and the total is their sum. |
| SkincareRouter.NextPhaseFirstMissing | app/routers/skincare.py:303-313 | The next phase names phase k iff k is the first phase whose flag is false or missing. |
| SkincareRouter.NextPhaseComplete | app/routers/skincare.py:303-313 | "Pipeline complete!" iff all four flags are true. |
| SkincareRouter.NextPhaseTextsDistinct | app/routers/skincare.py:303-313 | The five outcomes are distinct. |
| SkincareRouter.CompletedPhases | app/routers/skincare.py:300 | The flagged phases, as a sublist of the status. |
| SkincareRouter.CompletedAreHeld | app/routers/skincare.py:300-322 | The completed phases are the phases holding the session, and their number is the count. |
| SkincareRouter.FlagOfAt | app/routers/skincare.py:304-310 | `.get` finds the flag of a phase listed once. |
| SkincareRouter.FlagsOfStore | app/routers/skincare.py:298-310 | The router's flag for a phase is whether that phase holds the session. |
| SkincareRouter.GetSessionStatus | app/routers/skincare.py:282-331 | Unknown sessions get 404 "Session not found". Otherwise: completed phases in order, progress, the next phase as the first missing one, and pipeline_complete iff all four are held. |
| SkincareRouter.Reraise | app/routers/skincare.py:133-139 | An HTTPException passes unchanged. Anything else becomes a 500. |
| SkincareRouter.Phase1FormAnalysis | app/routers/skincare.py:34-74 | The form is appended to the service list and saved as phase1 under the new session id. The reply carries the form index. |
| SkincareRouter.Phase2ImageAnalysis | app/routers/skincare.py:81-139 | An unknown session gets 404 and a non-image content type gets 400, both before analysis. A missing content type fails on `startswith`. On success the analysis is saved as phase2. No error writes anything. |
| SkincareRouter.Phase3ProductRecommendations | app/routers/skincare.py:149-209 | Missing form data gets 400, then missing analysis gets 400, both before the service runs. Service errors are re-raised. On success the enriched data is saved as phase3 and the API response returned. |
| SkincareRouter.Phase4InputFields | app/routers/skincare.py:247-250 | The service receives the form and recommendations["products"], defaulting to {}. |
| SkincareRouter.Phase4RoutineCreation | app/routers/skincare.py:217-273 | Missing form data or recommendations gets 400 before the service runs. Falsy products give the rewrapped 500. Otherwise the result is create_routine's outcome on the form and the recommendations' products, its errors re-raised. On success that routine is saved as phase4. |
| SkincareRouter.CreateRoutineFor | app/services/routine_creation_service.py:157-228 | The outcome is CreatedRoutine's on the validated form. Every error is a 500. Success is a routine response. A valid form with falsy products gives the rewrapped 400. |
| ProductService.FirstMissing | app/services/product_service.py:14-28 | None iff every required field is present. Otherwise it names a missing one. |
| ProductService.Projection | app/services/product_service.py:14-28 | The response has thirteen entries. |
| ProductService.ProductHelper | app/services/product_service.py:9-28 | A missing or empty document gives None. A KeyError iff a required field is missing. |
| ProductService.ProjectionKeys | app/services/product_service.py:14-28 | Exactly the thirteen response keys, once each, in order. |
| ProductService.ProjectionFields | app/services/product_service.py:14-28 | Each response key maps to its field value. |
| ProductService.ProjectionDefaults | app/services/product_service.py:15-27 | id is str(_id). The URLs, rating and reviews default to None. media and related_products default to []. |
| ProductService.RequiredCopied | app/services/product_service.py:16-26 | key, query, fetched_at, title, description and price are copied unchanged. |
| ProductService.HelperOfComplete | app/services/product_service.py:9-28 | A complete document is projected. |
| ProductService.FindByKey | app/services/product_service.py:77-84 | The first document matching the key, or the count when none matches. |
| ProductService.UpdateRefetchesSame | app/services/product_service.py:77-90 | An update that keeps the key re-reads the same document, updated. |
| ProductService.FindByKeyAt | app/services/product_service.py:77-84 | A match with no earlier match is the one found. |
| ProductService.ProductCollection.constructor | app/services/product_service.py:75 | The collection holds the given documents. |
| ProductService.ProductCollection.UpdateProduct | app/services/product_service.py:73-90 | No match gives None and no change. Otherwise the first match is `$set` and the re-read document is projected. |
| ProductService.ProductCollection.DeleteProduct | app/services/product_service.py:93-98 | True iff a matching document existed. Exactly that first document is removed. |
| FormProcessing.Phase1Service.constructor | app/services/form_processing_service.py:15-17 | The form list starts empty. |
| FormProcessing.Phase1Service.SubmitForm | app/services/form_processing_service.py:19-34 | Exactly one form is appended at the end. form_index is the old length, stored_data is the form, and the message is fixed. |
| FormProcessing.Phase1Service.ListForms | app/services/form_processing_service.py:36-43 | Every submitted form, in submission order. |
| Phase1Api.FormList.constructor | api/phase1.py:24 | The module list starts empty. |
| Phase1Api.FormList.SubmitForm | api/phase1.py:28-37 | Exactly one form is appended. form_index is the old length and stored_data is the form. |
| Phase1Api.FormList.ListForms | api/phase1.py:40-42 | Every submitted form, in order. |
| Text.Strip | app/services/routine_creation_service.py:138 | `str.strip()` returns trimmed text that is no longer than its input. |
| Text.StripOfTrimmed | app/services/routine_creation_service.py:138 | Trimmed text is unchanged by `strip()`. |
| Text.Split | app/services/product_recommendation_service.py:142 | `split('\n')` gives at least one piece, and no piece holds the separator. |
| Text.JoinSplit | app/services/product_recommendation_service.py:142-149 | Joining the pieces gives back the text. |
| Text.SplitJoin | app/services/product_recommendation_service.py:142-149 | Splitting separator-free pieces after joining gives them back. |
| Text.ReplaceAbsent | app/services/product_recommendation_service.py:151 | Replacing an absent pattern changes nothing. |
| Text.ReplaceSame | app/services/image_analysis_service.py:27 | Replacing a character by itself, as `replace("'", "'")` does, changes nothing. |
| Text.NotAcrossLines | app/services/image_analysis_service.py:27 | A pattern with no newline that is in neither of two lines is not in the two lines joined. |
| Text.RemoveCharGone | app/services/image_analysis_service.py:27 | After removing a character, none of it remains. |
| Text.Lower | app/services/product_search_service.py:38 | `lower()` maps every character. |
| Text.TitleAt | app/services/routine_creation_service.py:196 | `title()` upper-cases a character after a non-letter and lower-cases it otherwise. |
| Text.Find | app/services/product_recommendation_service.py:155 | The first occurrence of a character, or the length when it is absent. |
| Text.RFind | app/services/image_analysis_service.py:87 | The last occurrence of a character, or -1. |
| Text.NatToStringRoundTrip | app/services/routine_creation_service.py:194 | The decimal text of k reads back as k. |
| Json.Get | app/services/routine_creation_service.py:177-180 | A dict lookup finds a value iff the key is present. |
| Json.GetFirst | app/services/routine_creation_service.py:177-180 | With insertion-ordered entries, the first occurrence of a key is its value. |
| Json.Set | app/services/routine_creation_service.py:194-211 | Dict assignment: the key is appended when new and replaced in place otherwise, and every other key is unchanged. |
| Json.SetNewKey | app/services/routine_creation_service.py:194-211 | Assigning a new key appends it. |
| Json.UpdateGet | app/services/product_service.py:81 | After `$set`, a field holds the new value when it was set and its old value otherwise. |
| Json.Iterate | app/services/product_recommendation_service.py:260 | Iteration is possible iff the value is a list, dict or string, and it yields `len` items. |
| Json.Dumps | app/services/routine_creation_service.py:75 | `json.dumps` succeeds iff the value is serialisable. Otherwise it raises TypeError. |

## Left out

- The generative model, `json.loads`/`json.dumps` rendering, SerpAPI, `float()`, `datetime.isoformat`, uuid generation and the clock are parameters. Their behaviour is not modelled.
- PIL image handling and `Phase2Service.analyze_face` are not modelled. The route takes the analysis result as a parameter.
- The router's `JSONResponse.body` decoding in phase 2 is not modelled: the analysis arrives as a value.
- Pydantic validation of request bodies and response models is not modelled. `FormData(**…)` and `.dict()` are parameters, and response-model checks are not modelled.
- Async execution, FastAPI routing and status-code defaults are not modelled.
- `budget_distribution` is a parameter of the phase 3 route. Its per-category budgets are floating point rounding, which the model does not cover.
- `enrich_future_recommendations` and `get_user_recommended_products` are not modelled. They are loops over calls already modelled, with no further rule.
- The prompt texts are modelled only where a property is stated about them: the routine prompt, the budget prompt and the `api/phase3.py` prompt. The recommendation and future-category prompts are left out.
- ProductSearch.ProductSearchService.SearchProductInCache: the case-insensitive `$regex` match is modelled as a case-insensitive substring test: a document matches when its lowered `query` contains the key `query.lower().strip()`. Regex metacharacters in the key (such as `+`, `.`, `(`) are read literally rather than as pattern syntax. An invalid pattern, which makes MongoDB raise an error that the `except` turns into None, is not modelled. When several documents match, the model picks any one, not MongoDB's first.
- Forms.ReprStr: characters above U+00FF that Python's `str.isprintable` rejects (such as U+2028) are kept as they are, not written as `\u` or `\U` escapes.
- ProductSearch.FetchProduct: the SerpAPI request and the detailed-product fetch are one oracle returning the fields. HTTP status checks are folded into that oracle's None.
- MongoDB failures are not modelled: save always returns true, and the `except` branches of the data store are not modelled.
- SessionStore.DataStore.CleanupExpiredSessions: expiry is compared on instants, not on ISO strings. An unparseable expiry is never deleted.
- Text.Lower: `lower()` and `title()` act on ASCII letters only.
- `DataStore.get_all_sessions` is not modelled. It only composes `get_session_status` over every stored id.
- The `create_session` uuid is an input of the phase 1 route.
- In `product_service.py`, `get_all_products`, `get_product_by_key` and `create_product` are not modelled. They are plain collection reads and inserts.
- The router's `list_forms`, `recommended-products`, `cache-stats` and product search endpoints are not modelled. They are thin wrappers over modelled services.
- Float values such as NaN are not modelled: `Json.Float` holds a real.
- Json.Codec: `loads` is any function, so a dict it returns may repeat a key, which json.loads never produces (the last value wins there). The lemmas that rely on distinct keys require `DistinctKeys`.
- ImageAnalysis.CleanResponse: is the corrected cleaner of the line-27 finding, not the code; the service uses `CleanResponseAsWritten`, which leaves curly quotes in place.

## Findings

| source | as written | input that shows it | evidently intended | confidence | as-written member | corrected member |
|---|---|---|---|---|---|---|
| app/services/product_recommendation_service.py:144-148 | The backward scan for the closing fence also checks line 0, which is the opener. A reply whose first line is a bare fence and that has no closing fence is cut at line 0, and the slice from line 1 to line 0 is empty. The service members follow the code as written, so such a reply is parsed as "" and gives the 500 (UnclosedFenceCleansEmpty). The corrected cut is FenceBody. | a bare fence line, then the line [{"name": "X"}], with no closing fence | Look for the closing fence only after the opener, and keep the body when there is none | not executed | ProductRecommendation.UnclosedFenceLost | ProductRecommendation.FencedCut |
| app/services/image_analysis_service.py:27 | In the file's text, the two replacement patterns meant as curly quotes read as plain `"` pairs. Python then sees `""", '"').replace("""` as one triple-quoted literal, and the apostrophe is replaced by itself. Curly quotes are never straightened. `AnalyzeFaceImage` follows the code as written. | "“ok”" | Replace U+201C and U+201D by `"` and U+2019 by `'` | not executed (the file's text may not preserve the original characters) | ImageAnalysis.CurlyQuotesKept | ImageAnalysis.CurlyQuotesStraightened |
