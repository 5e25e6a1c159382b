/** Product search with a MongoDB cache (app/services/product_search_service.py).
    The two collections are maps from document id to document; the SerpAPI
    lookup is an oracle. */
module ProductSearch {
  import opened Wrappers
  import opened Text
  import opened Json

  // ------------------------------------------------------- query cleaning

  /** re.sub(r'\s*\([^)]*\)', '', s): from left to right, remove every
      parenthesised group (up to the first ')' after the '(') together with
      the whitespace run just before it. */
  function RemoveParens(s: string): (r: string)
    ensures |r| <= |s|
    decreases |s|
  {
    if s == [] then []
    else
      var w := LeadingRun(s, IsSpace);
      if w < |s| && s[w] == '(' && ')' in s[w + 1..] then
        RemoveParens(s[w + 1 + Find(s[w + 1..], ')') + 1..])
      else [s[0]] + RemoveParens(s[1..])
  }

  /** re.sub(r'\s+', ' ', s): every maximal whitespace run becomes one space. */
  function CollapseWs(s: string): (r: string)
    decreases |s|
  {
    if s == [] then []
    else if IsSpace(s[0]) then
      var w := LeadingRun(s, IsSpace);
      " " + CollapseWs(s[w..])
    else [s[0]] + CollapseWs(s[1..])
  }

  const Instructions: seq<string> := [
    "patch test only", "use sparingly", "for sensitive skin",
    "apply at night", "morning use only", "evening use only"]

  /** Remove each phrase in turn, case-sensitively. */
  function RemovePhrases(s: string, phrases: seq<string>): string
    requires forall i :: 0 <= i < |phrases| ==> phrases[i] != []
    decreases |phrases|
  {
    if phrases == [] then s else RemovePhrases(Replace(s, phrases[0], []), phrases[1..])
  }

  /** _clean_product_query, as a function of the query. */
  function CleanQuery(q: string): string
  {
    Strip(CollapseWs(RemovePhrases(RemoveParens(q), Instructions)))
  }

  /** _clean_product_query: the parentheses pass, the phrase loop, the
      whitespace pass. */
  method CleanProductQuery(query: string) returns (cleaned: string)
    ensures cleaned == CleanQuery(query)
    ensures Trimmed(cleaned) && SingleSpaced(cleaned)
  {
    cleaned := RemoveParens(query);
    for j := 0 to |Instructions|
      invariant RemovePhrases(cleaned, Instructions[j..]) == RemovePhrases(RemoveParens(query), Instructions)
    {
      assert Instructions[j..][1..] == Instructions[j + 1..];
      cleaned := Replace(cleaned, Instructions[j], []);
    }
    cleaned := Strip(CollapseWs(cleaned));
    CleanQueryNormal(query);
  }

  /** Every whitespace character is a plain space and none follows another. */
  predicate SingleSpaced(s: string)
  {
    forall i :: 0 <= i < |s| && IsSpace(s[i]) ==> s[i] == ' ' && (i + 1 < |s| ==> !IsSpace(s[i + 1]))
  }

  /** Collapsing leaves single plain spaces; a collapsed text starts with a
      space exactly when the input starts with whitespace. */
  lemma {:induction false} CollapseWsSingle(s: string)
    ensures SingleSpaced(CollapseWs(s))
    ensures CollapseWs(s) != [] <==> s != []
    ensures s != [] ==> (IsSpace(CollapseWs(s)[0]) <==> IsSpace(s[0]))
    decreases |s|
  {
    if s != [] {
      var r := CollapseWs(s);
      if IsSpace(s[0]) {
        var w := LeadingRun(s, IsSpace);
        CollapseWsSingle(s[w..]);
        var t := CollapseWs(s[w..]);
        assert r == " " + t;
        forall i | 0 <= i < |r| && IsSpace(r[i])
          ensures r[i] == ' ' && (i + 1 < |r| ==> !IsSpace(r[i + 1]))
        {
          if i > 0 { assert r[i] == t[i - 1]; }
        }
      } else {
        CollapseWsSingle(s[1..]);
        var t := CollapseWs(s[1..]);
        assert r == [s[0]] + t;
        forall i | 0 <= i < |r| && IsSpace(r[i])
          ensures r[i] == ' ' && (i + 1 < |r| ==> !IsSpace(r[i + 1]))
        {
          assert i > 0;
          assert r[i] == t[i - 1];
        }
      }
    }
  }

  /** A slice of a single-spaced text is single-spaced. */
  lemma SingleSpacedSlice(s: string, a: nat, b: nat)
    requires SingleSpaced(s) && a <= b <= |s|
    ensures SingleSpaced(s[a..b])
  {
    var t := s[a..b];
    forall i | 0 <= i < |t| && IsSpace(t[i])
      ensures t[i] == ' ' && (i + 1 < |t| ==> !IsSpace(t[i + 1]))
    {
      assert t[i] == s[a + i];
      if i + 1 < |t| { assert t[i + 1] == s[a + i + 1]; }
    }
  }

  /** The cleaned query is trimmed and single-spaced. */
  lemma CleanQueryNormal(q: string)
    ensures Trimmed(CleanQuery(q)) && SingleSpaced(CleanQuery(q))
  {
    CollapsedStripped(RemovePhrases(RemoveParens(q), Instructions));
  }

  /** Collapsing then trimming leaves a single-spaced text. */
  lemma CollapsedStripped(x: string)
    ensures SingleSpaced(Strip(CollapseWs(x)))
  {
    var c := CollapseWs(x);
    CollapseWsSingle(x);
    var a := LeadingRun(c, IsSpace);
    SingleSpacedSlice(c, a, a + |Strip(c)|);
  }

  /** Without '(' there is nothing for the parentheses pass to remove. */
  lemma {:induction false} RemoveParensNone(s: string)
    requires '(' !in s
    ensures RemoveParens(s) == s
    decreases |s|
  {
    if s != [] {
      RemoveParensNone(s[1..]);
      assert s == [s[0]] + s[1..];
    }
  }

  /** A single-spaced text is its own whitespace collapse. */
  lemma {:induction false} CollapseWsSingleSpaced(s: string)
    requires SingleSpaced(s)
    ensures CollapseWs(s) == s
    decreases |s|
  {
    if s != [] {
      SingleSpacedSlice(s, 1, |s|);
      if IsSpace(s[0]) {
        assert LeadingRun(s, IsSpace) == 1 by {
          if |s| > 1 { assert !IsSpace(s[1]); }
        }
      }
      CollapseWsSingleSpaced(s[1..]);
      assert s == [s[0]] + s[1..];
    }
  }

  lemma {:induction false} RemovePhrasesAbsent(s: string, phrases: seq<string>)
    requires forall i :: 0 <= i < |phrases| ==> phrases[i] != [] && !Contains(s, phrases[i])
    ensures RemovePhrases(s, phrases) == s
    decreases |phrases|
  {
    if phrases != [] {
      ReplaceAbsent(s, phrases[0], []);
      RemovePhrasesAbsent(s, phrases[1..]);
    }
  }

  /** A query that is already clean (no parentheses, no listed phrase,
      single spaces, trimmed) is returned unchanged. */
  lemma CleanQueryOfClean(q: string)
    requires '(' !in q
    requires forall i :: 0 <= i < |Instructions| ==> !Contains(q, Instructions[i])
    requires SingleSpaced(q) && Trimmed(q)
    ensures CleanQuery(q) == q
  {
    RemoveParensNone(q);
    RemovePhrasesAbsent(q, Instructions);
    CollapseWsSingleSpaced(q);
    StripOfTrimmed(q);
  }

  /** "X (y)" loses the group and the space before it, when X holds no '('
      and does not end in whitespace, and y holds no ')'. */
  lemma {:induction false} RemoveTrailingGroup(x: string, y: string)
    requires '(' !in x && ')' !in y
    requires x != [] ==> !IsSpace(x[|x| - 1])
    ensures RemoveParens(x + (" (" + y + ")")) == x
    decreases |x|
  {
    var g := " (" + y + ")";
    if x == [] {
      assert x + g == g;
      GroupOnly(y);
    } else {
      KeepsFirst(x, g);
      RemoveTrailingGroup(x[1..], y);
      assert x == [x[0]] + x[1..];
    }
  }

  /** The first character of x survives in front of g. */
  lemma KeepsFirst(x: string, g: string)
    requires x != [] && '(' !in x && !IsSpace(x[|x| - 1])
    ensures RemoveParens(x + g) == [x[0]] + RemoveParens(x[1..] + g)
  {
    GroupSplit(x, g);
    RemoveParensKeeps(x + g);
  }

  /** Slicing facts about x + g when x is non-empty, holds no '(' and does
      not end in whitespace. */
  lemma GroupSplit(x: string, g: string)
    requires x != [] && '(' !in x && !IsSpace(x[|x| - 1])
    ensures LeadingRun(x + g, IsSpace) < |x|
    ensures (x + g)[LeadingRun(x + g, IsSpace)] != '('
    ensures (x + g)[0] == x[0] && (x + g)[1..] == x[1..] + g
  {
    var s := x + g;
    var w := LeadingRun(s, IsSpace);
    assert s[|x| - 1] == x[|x| - 1];
    assert w < |x|;
    assert s[w] == x[w];
  }

  /** When the whitespace run at the front is not followed by '(', the first
      character stays. */
  lemma RemoveParensKeeps(s: string)
    requires s != []
    requires LeadingRun(s, IsSpace) < |s| && s[LeadingRun(s, IsSpace)] != '('
    ensures RemoveParens(s) == [s[0]] + RemoveParens(s[1..])
  {
  }

  /** " (y)" goes entirely. */
  lemma GroupOnly(y: string)
    requires ')' !in y
    ensures RemoveParens(" (" + y + ")") == []
  {
    var s := " (" + y + ")";
    assert LeadingRun(s, IsSpace) == 1;
    var t := y + ")";
    assert s[2..] == t;
    assert t[|y|] == ')';
    assert forall j :: 0 <= j < |y| ==> t[j] == y[j];
    assert Find(t, ')') == |y|;
    assert s[2 + |y| + 1..] == [];
  }

  // ------------------------------------------------------------ fetching

  /** A value the final filter keeps: not None, not "" and not []. */
  predicate Kept(v: Value)
  {
    v != Null && v != Str([]) && v != Arr([])
  }

  /** `{k: v for k, v in d.items() if v is not None and v != "" and v != []}` */
  function KeepFilled(e: Entries): (r: Entries)
    ensures forall i :: 0 <= i < |r| ==> Kept(r[i].1)
    ensures forall p :: p in r <==> p in e && Kept(p.1)
  {
    if e == [] then []
    else (if Kept(e[0].1) then [e[0]] else []) + KeepFilled(e[1..])
  }

  /** The description: the detailed text if truthy, else the basic snippet
      if truthy, else the fixed placeholder. */
  function BestDescription(record: Entries, detailed: Value): (d: Value)
    ensures Truthy(d)
  {
    if Truthy(detailed) then detailed
    else
      var snippet := GetOr(record, "basic_snippet", Str([]));
      if Truthy(snippet) then snippet else Str("No description available")
  }

  /** The end of fetch_product_from_serpapi: set the description, then drop
      the empty values. */
  function FinalizeRecord(record: Entries, detailed: Value): (r: Entries)
    ensures forall i :: 0 <= i < |r| ==> Kept(r[i].1)
    ensures ("description", BestDescription(record, detailed)) in r
  {
    var d := BestDescription(record, detailed);
    var withDescription := Set(record, "description", d);
    assert Get(withDescription, "description") == Some(d);
    GetIn(withDescription, "description");
    assert Kept(d);
    KeepFilled(withDescription)
  }

  /** What the shopping search (and the product-API follow-up) gives for a
      cleaned query: the record's remaining fields, in the order the source
      builds them, and the detailed description ("" when there is none). */
  datatype ShoppingHit = ShoppingHit(fields: Entries, detailedDescription: Value)

  /** The SerpAPI calls: None when a request fails, the response carries an
      error, there are no shopping results, or anything raises. */
  type SerpApi = string -> Option<ShoppingHit>

  /** fetch_product_from_serpapi. A query that is not a string makes the
      cleaning raise, which the function turns into None. */
  function FetchProduct(query: Value, serp: SerpApi): (r: Option<Entries>)
    ensures !query.Str? ==> r.None?
    ensures r.Some? ==> HasKey(r.value, "description")
    ensures r.Some? ==> forall i :: 0 <= i < |r.value| ==> Kept(r.value[i].1)
  {
    if !query.Str? then None
    else match serp(CleanQuery(query.s))
      case None => None
      case Some(hit) =>
        var record := FinalizeRecord(Update([("query", query)], hit.fields), hit.detailedDescription);
        InHasKey(record, "description",
                 BestDescription(Update([("query", query)], hit.fields), hit.detailedDescription));
        Some(record)
  }

  // ------------------------------------------------------------ the cache

  /** The cache key of a query: query.lower().strip(). */
  function CacheKey(q: string): string
  {
    Strip(Lower(q))
  }

  /** The regex lookup of search_product_in_cache, read as a case-insensitive
      substring test of the key against the document's "query" field. */
  predicate MatchesQuery(doc: Entries, key: string)
  {
    var q := Get(doc, "query");
    q.Some? && q.value.Str? && Contains(Lower(q.value.s), key)
  }

  /** The document save_to_products_cache writes:
      {"_id": key, "key": key, **product_data, "cached_at": now}. */
  function CacheDocument(productData: Entries, key: string, now: int): Entries
  {
    Set(Update([("_id", Str(key)), ("key", Str(key))], productData), "cached_at", Time(now))
  }

  /** The products cache after save_to_products_cache: the document is
      upserted under the query's key. A missing or non-string "query" raises
      before the write; so does an "_id" in the data that differs from the
      key, since the replacement would change the document's _id. Either way
      nothing is written. */
  function CacheAfterSave(cache: map<string, Entries>, productData: Entries, now: int): map<string, Entries>
  {
    if SaveWrites(productData, now) then
      var key := CacheKey(Get(productData, "query").value.s);
      cache[key := CacheDocument(productData, key, now)]
    else cache
  }

  /** A save whose document keeps the key as its "_id" writes it under the key. */
  lemma SavedUnder(cache: map<string, Entries>, productData: Entries, now: int, query: string)
    requires Get(productData, "query") == Some(Str(query))
    requires Get(CacheDocument(productData, CacheKey(query), now), "_id") == Some(Str(CacheKey(query)))
    ensures SaveWrites(productData, now)
    ensures CacheAfterSave(cache, productData, now)
         == cache[CacheKey(query) := CacheDocument(productData, CacheKey(query), now)]
  {
  }

  /** Whether save_to_products_cache gets as far as the write: a string
      query, and a document whose "_id" is still the key. */
  predicate SaveWrites(productData: Entries, now: int)
  {
    var q := Get(productData, "query");
    q.Some? && q.value.Str?
    && var key := CacheKey(q.value.s);
       Get(CacheDocument(productData, key, now), "_id") == Some(Str(key))
  }

  /** The document save_user_recommended_product writes. */
  function UserProductDocument(sessionId: string, query: Value, key: string, productData: Entries,
                               context: Value, now: int): (doc: Entries)
    ensures Get(doc, "_id") == Some(Str(sessionId + "_" + key))
  {
    [("_id", Str(sessionId + "_" + key)), ("session_id", Str(sessionId)), ("product_query", query),
     ("product_data", Obj(productData)), ("recommendation_context", context),
     ("recommended_at", Time(now)), ("expires_at", Time(now + 365 * 86400))]
  }

  /** The user-recommendation collection after save_user_recommended_product:
      an upsert under session_id + "_" + key; a missing or non-string "query"
      raises and nothing is written. */
  function UserProductsAfterSave(userProducts: map<string, Entries>, sessionId: string, productData: Entries,
                                 context: Value, now: int): map<string, Entries>
  {
    var q := Get(productData, "query");
    if q.Some? && q.value.Str? then
      var key := CacheKey(q.value.s);
      userProducts[sessionId + "_" + key := UserProductDocument(sessionId, q.value, key, productData, context, now)]
    else userProducts
  }

  // --------------------------------------------------- one whole lookup

  /** The ids of the cached documents that match a key. */
  function MatchingIds(cache: map<string, Entries>, key: string): set<string>
  {
    set id | id in cache && MatchesQuery(cache[id], key)
  }

  /** Some cached document matches the query. */
  predicate InCacheOf(cache: map<string, Entries>, query: Value)
  {
    query.Str? && MatchingIds(cache, CacheKey(query.s)) != {}
  }

  /** What get_or_fetch_product may return, given the cache it starts from:
      on a hit some matching cached document, on a miss the fetch's result. */
  predicate LookupResult(cache: map<string, Entries>, query: Value, serp: SerpApi, r: Option<Entries>)
  {
    if InCacheOf(cache, query) then r.Some? && r.value in cache.Values && MatchesQuery(r.value, CacheKey(query.s))
    else r == FetchProduct(query, serp)
  }

  /** The products cache after get_or_fetch_product: untouched on a hit; on
      a miss the fetched record, when there is one, is saved. */
  function CacheAfterLookup(cache: map<string, Entries>, query: Value, serp: SerpApi, now: int): map<string, Entries>
  {
    if InCacheOf(cache, query) then cache
    else match FetchProduct(query, serp)
      case Some(record) => CacheAfterSave(cache, record, now)
      case None => cache
  }

  /** The user-recommendation collection after get_or_fetch_product returned
      r: the product is recorded when it was found and both the session id
      and the context are truthy. */
  function UsersAfterLookup(userProducts: map<string, Entries>, sessionId: Option<string>, r: Option<Entries>,
                            context: Value, now: int): map<string, Entries>
  {
    if r.Some? && sessionId.Some? && sessionId.value != [] && Truthy(context)
    then UserProductsAfterSave(userProducts, sessionId.value, r.value, context, now)
    else userProducts
  }

  // ------------------------------------------------- cache-key properties

  /** Assigning every entry of a distinct-keyed dict into a distinct-keyed
      dict keeps the keys distinct. */
  lemma {:induction false} UpdateDistinct(e: Entries, more: Entries)
    requires DistinctKeys(e)
    ensures DistinctKeys(Update(e, more))
    decreases |more|
  {
    if more != [] {
      SetDistinct(e, more[0].0, more[0].1);
      UpdateDistinct(Set(e, more[0].0, more[0].1), more[1..]);
    }
  }

  /** The cache document carries the key as "_id" and as "key", the save
      time as "cached_at", and every other field of the data unchanged, when
      the data itself holds no "_id", "key" or "cached_at". */
  lemma CacheDocumentFields(productData: Entries, key: string, now: int, k: string)
    requires DistinctKeys(productData)
    requires !HasKey(productData, "_id") && !HasKey(productData, "key")
    ensures var doc := CacheDocument(productData, key, now);
      Get(doc, "_id") == Some(Str(key)) && Get(doc, "key") == Some(Str(key))
      && Get(doc, "cached_at") == Some(Time(now))
      && (k != "_id" && k != "key" && k != "cached_at" ==> Get(doc, k) == Get(productData, k))
  {
    var base := [("_id", Str(key)), ("key", Str(key))];
    UpdateGet(base, productData, "_id");
    UpdateGet(base, productData, "key");
    UpdateGet(base, productData, k);
  }

  /** A save of data with a string query and no "_id" of its own upserts
      the cache document under query.lower().strip(), replacing whatever was
      stored under that id and leaving every other id alone. */
  lemma SaveUnderQueryKey(cache: map<string, Entries>, productData: Entries, now: int)
    requires DistinctKeys(productData)
    requires !HasKey(productData, "_id") && !HasKey(productData, "key")
    requires Get(productData, "query").Some? && Get(productData, "query").value.Str?
    ensures var key := CacheKey(Get(productData, "query").value.s);
      CacheAfterSave(cache, productData, now) == cache[key := CacheDocument(productData, key, now)]
  {
    var key := CacheKey(Get(productData, "query").value.s);
    CacheDocumentFields(productData, key, now, "_id");
  }

  /** A dict without its first entry still has distinct keys, none of them
      the first entry's. */
  lemma DistinctTail(e: Entries)
    requires e != [] && DistinctKeys(e)
    ensures DistinctKeys(e[1..]) && !HasKey(e[1..], e[0].0)
  {
    forall i, j | 0 <= i < j < |e[1..]| ensures e[1..][i].0 != e[1..][j].0 {
      assert e[1..][i] == e[i + 1] && e[1..][j] == e[j + 1];
    }
    KeysIndex(e[1..]);
    forall j | 0 <= j < |e[1..]| ensures Keys(e[1..])[j] != e[0].0 {
      assert e[1..][j] == e[j + 1];
    }
  }

  /** The filter keeps the keys distinct. */
  lemma {:induction false} KeepFilledDistinct(e: Entries)
    requires DistinctKeys(e)
    ensures DistinctKeys(KeepFilled(e))
  {
    if e != [] {
      DistinctTail(e);
      KeepFilledDistinct(e[1..]);
      var t := KeepFilled(e[1..]);
      if Kept(e[0].1) {
        var r := [e[0]] + t;
        KeysIndex(e[1..]);
        forall i | 0 <= i < |t| ensures t[i].0 != e[0].0 {
          assert t[i] in e[1..];
          var j :| 0 <= j < |e[1..]| && e[1..][j] == t[i];
          assert Keys(e[1..])[j] == t[i].0;
        }
        forall i, j | 0 <= i < j < |r| ensures r[i].0 != r[j].0 {
          assert r[j] == t[j - 1];
          if i > 0 { assert r[i] == t[i - 1]; }
        }
      }
    }
  }

  /** The filter keeps exactly the kept values, under their keys. */
  lemma {:induction false} KeepFilledGet(e: Entries, k: string)
    requires DistinctKeys(e)
    ensures Get(KeepFilled(e), k) == if Get(e, k).Some? && Kept(Get(e, k).value) then Get(e, k) else None
  {
    if e != [] {
      DistinctTail(e);
      KeepFilledGet(e[1..], k);
      var t := KeepFilled(e[1..]);
      var r := if Kept(e[0].1) then [e[0]] + t else t;
      assert KeepFilled(e) == r;
      if Kept(e[0].1) {
        assert r[1..] == t;
      }
    }
  }

  /** Away from "description", the finished record holds exactly the kept
      values of the record it was built from. */
  lemma FinalizeRecordGet(record: Entries, detailed: Value, k: string)
    requires DistinctKeys(record) && k != "description"
    ensures DistinctKeys(FinalizeRecord(record, detailed))
    ensures Get(FinalizeRecord(record, detailed), k)
            == if Get(record, k).Some? && Kept(Get(record, k).value) then Get(record, k) else None
  {
    var d := BestDescription(record, detailed);
    SetDistinct(record, "description", d);
    KeepFilledDistinct(Set(record, "description", d));
    KeepFilledGet(Set(record, "description", d), k);
  }

  /** The record built for a non-empty string query from fields holding no
      "query", "_id" or "key" keeps its query and gains no "_id" or "key". */
  lemma BuiltRecordFields(query: string, fields: Entries, detailed: Value)
    requires query != []
    requires DistinctKeys(fields) && !HasKey(fields, "query") && !HasKey(fields, "_id") && !HasKey(fields, "key")
    ensures var r := FinalizeRecord(Update([("query", Str(query))], fields), detailed);
      DistinctKeys(r) && Get(r, "query") == Some(Str(query)) && !HasKey(r, "_id") && !HasKey(r, "key")
  {
    var start: Entries := [("query", Str(query))];
    var record := Update(start, fields);
    UpdateDistinct(start, fields);
    UpdateGet(start, fields, "query");
    UpdateGet(start, fields, "_id");
    UpdateGet(start, fields, "key");
    FinalizeRecordGet(record, detailed, "query");
    FinalizeRecordGet(record, detailed, "_id");
    FinalizeRecordGet(record, detailed, "key");
  }

  /** A record fetched for a non-empty string query, from a search hit whose
      fields are distinct and hold no "query", "_id" or "key", keeps its
      query and is cached under query.lower().strip(). */
  lemma FetchedRecordCachedUnderKey(cache: map<string, Entries>, query: string, serp: SerpApi, now: int)
    requires query != []
    requires serp(CleanQuery(query)).Some?
    requires var f := serp(CleanQuery(query)).value.fields;
      DistinctKeys(f) && !HasKey(f, "query") && !HasKey(f, "_id") && !HasKey(f, "key")
    ensures FetchProduct(Str(query), serp).Some?
    ensures var r := FetchProduct(Str(query), serp).value;
      Get(r, "query") == Some(Str(query))
      && CacheAfterSave(cache, r, now) == cache[CacheKey(query) := CacheDocument(r, CacheKey(query), now)]
  {
    var hit := serp(CleanQuery(query)).value;
    var r := FinalizeRecord(Update([("query", Str(query))], hit.fields), hit.detailedDescription);
    assert FetchProduct(Str(query), serp) == Some(r);
    BuiltRecordFields(query, hit.fields, hit.detailedDescription);
    SaveUnderQueryKey(cache, r, now);
  }

  class ProductSearchService {
    /** products_cache, by _id. */
    var cache: map<string, Entries>
    /** user_recommended_products, by _id. */
    var userProducts: map<string, Entries>

    constructor (cache0: map<string, Entries>, userProducts0: map<string, Entries>)
      ensures cache == cache0 && userProducts == userProducts0
    {
      cache := cache0;
      userProducts := userProducts0;
    }

    /** Some cached document matches the query. */
    predicate InCache(query: Value)
      reads this
    {
      InCacheOf(cache, query)
    }

    /** search_product_in_cache: some document whose "query" matches the
        key, or None; which one MongoDB returns first is left open. A query
        that is not a string fails inside the try and gives None. */
    method SearchProductInCache(query: Value) returns (r: Option<Entries>)
      ensures r.Some? <==> InCache(query)
      ensures r.Some? ==> r.value in cache.Values && MatchesQuery(r.value, CacheKey(query.s))
    {
      if !query.Str? {
        return None;
      }
      var key := CacheKey(query.s);
      if id :| id in MatchingIds(cache, key) {
        r := Some(cache[id]);
      } else {
        r := None;
      }
    }

    /** save_to_products_cache. */
    method SaveToProductsCache(productData: Entries, now: int) returns (ok: bool)
      modifies this
      ensures cache == CacheAfterSave(old(cache), productData, now)
      ensures userProducts == old(userProducts)
      ensures ok <==> SaveWrites(productData, now)
    {
      var q := Get(productData, "query");
      if q.None? || !q.value.Str? {
        return false;
      }
      var key := CacheKey(q.value.s);
      var doc := CacheDocument(productData, key, now);
      if Get(doc, "_id") != Some(Str(key)) {
        return false;
      }
      SavedUnder(cache, productData, now, q.value.s);
      cache := cache[key := doc];
      return true;
    }

    /** save_user_recommended_product. */
    method SaveUserRecommendedProduct(sessionId: string, productData: Entries, context: Value, now: int)
      returns (ok: bool)
      modifies this
      ensures userProducts == UserProductsAfterSave(old(userProducts), sessionId, productData, context, now)
      ensures cache == old(cache)
      ensures ok <==> var q := Get(productData, "query"); q.Some? && q.value.Str?
    {
      var q := Get(productData, "query");
      if q.None? || !q.value.Str? {
        return false;
      }
      var key := CacheKey(q.value.s);
      userProducts := userProducts[sessionId + "_" + key :=
                        UserProductDocument(sessionId, q.value, key, productData, context, now)];
      return true;
    }

    /** get_or_fetch_product: the cache first; on a miss, the fetch and a
        cache save; then, when both the session id and the context are
        truthy, a save to the user's recommendations. */
    method GetOrFetchProduct(query: Value, sessionId: Option<string>, context: Value, serp: SerpApi, now: int)
      returns (r: Option<Entries>)
      modifies this
      ensures LookupResult(old(cache), query, serp, r)
      ensures cache == CacheAfterLookup(old(cache), query, serp, now)
      ensures userProducts == UsersAfterLookup(old(userProducts), sessionId, r, context, now)
    {
      var productData := SearchProductInCache(query);
      if productData.None? || productData.value == [] {
        productData := FetchProduct(query, serp);
        if productData.None? || productData.value == [] {
          return None;
        }
        var saved := SaveToProductsCache(productData.value, now);
      }
      if sessionId.Some? && sessionId.value != [] && Truthy(context) {
        var saved := SaveUserRecommendedProduct(sessionId.value, productData.value, context, now);
      }
      return productData;
    }
  }
}
