/** The product catalogue service (app/services/product_service.py): the
    projection of a stored MongoDB document to the response shape, and
    update and delete of the document found by its "key" field. The
    collection is the sequence of its documents in natural order. */
module ProductService {
  import opened Wrappers
  import opened Json

  /** The fields the projection reads with `product[...]`, in the order the
      dict literal evaluates them; the first one missing raises KeyError. */
  const RequiredFields: seq<string> := ["_id", "key", "query", "fetched_at", "title", "description", "price"]

  /** The keys of the response, in order. */
  const ResponseKeys: seq<string> := [
    "id", "key", "query", "fetched_at", "google_product_url", "product_api_url",
    "title", "description", "rating", "reviews", "media", "price", "related_products"]

  /** `str(product["_id"])`: an ObjectId prints as its hex text, a string as
      itself; `pyStr` is str() for anything else. */
  function IdText(id: Value, pyStr: Value -> string): string
  {
    match id
    case ObjectId(hex) => hex
    case Str(s) => s
    case _ => pyStr(id)
  }

  /** The first of `fields` the document does not hold. */
  function FirstMissing(e: Entries, fields: seq<string>): (r: Option<string>)
    ensures r.None? <==> forall i :: 0 <= i < |fields| ==> HasKey(e, fields[i])
    ensures r.Some? ==> r.value in fields && !HasKey(e, r.value)
  {
    if fields == [] then None
    else if !HasKey(e, fields[0]) then Some(fields[0])
    else FirstMissing(e, fields[1..])
  }

  /** The value the response holds under key k: the id as text, a stored
      field as is, a missing optional field as None, or [] for media and
      related_products. */
  function FieldValue(e: Entries, k: string, pyStr: Value -> string): Value
  {
    if k == "id" then Str(IdText(GetOr(e, "_id", Null), pyStr))
    else GetOr(e, k, if k == "media" || k == "related_products" then Arr([]) else Null)
  }

  /** The response dict of a document holding every required field. */
  function Projection(e: Entries, pyStr: Value -> string): (p: Entries)
    ensures |p| == |ResponseKeys|
  {
    seq(|ResponseKeys|, i requires 0 <= i < |ResponseKeys| => (ResponseKeys[i], FieldValue(e, ResponseKeys[i], pyStr)))
  }

  /** _product_helper: None for a missing or empty document, KeyError for
      the first required field it lacks, else the projection. */
  function ProductHelper(product: Option<Entries>, pyStr: Value -> string): (r: Result<Option<Entries>, Raised>)
    ensures r == Ok(None) <==> product.None? || product.value == []
    ensures r.Err? <==> product.Some? && product.value != [] && FirstMissing(product.value, RequiredFields).Some?
    ensures r.Err? ==> r.error.PyException? && r.error.kind == "KeyError"
  {
    if product.None? || product.value == [] then Ok(None)
    else match FirstMissing(product.value, RequiredFields)
      case Some(k) => Err(PyException("KeyError", "'" + k + "'"))
      case None => Ok(Some(Projection(product.value, pyStr)))
  }

  lemma ResponseKeysDistinct()
    ensures forall i, j :: 0 <= i < j < |ResponseKeys| ==> ResponseKeys[i] != ResponseKeys[j]
  {
  }

  /** The projection has exactly the thirteen response keys, once each. */
  lemma ProjectionKeys(e: Entries, pyStr: Value -> string)
    ensures Keys(Projection(e, pyStr)) == ResponseKeys
    ensures DistinctKeys(Projection(e, pyStr))
  {
    var p := Projection(e, pyStr);
    KeysIndex(p);
    ResponseKeysDistinct();
    assert forall i :: 0 <= i < |p| ==> p[i].0 == ResponseKeys[i];
  }

  /** Looking up a response key finds its value. */
  lemma ProjectionFields(e: Entries, pyStr: Value -> string, i: nat)
    requires i < |ResponseKeys|
    ensures Get(Projection(e, pyStr), ResponseKeys[i]) == Some(FieldValue(e, ResponseKeys[i], pyStr))
  {
    var p := Projection(e, pyStr);
    ProjectionKeys(e, pyStr);
    KeysIndex(p);
    GetFirst(p, i);
  }

  /** The id is the text of `_id`; the optional fields are copied when
      present and otherwise None, or [] for media and related_products. */
  lemma ProjectionDefaults(e: Entries, pyStr: Value -> string)
    ensures Get(Projection(e, pyStr), "id") == Some(Str(IdText(GetOr(e, "_id", Null), pyStr)))
    ensures Get(Projection(e, pyStr), "google_product_url") == Some(GetOr(e, "google_product_url", Null))
    ensures Get(Projection(e, pyStr), "product_api_url") == Some(GetOr(e, "product_api_url", Null))
    ensures Get(Projection(e, pyStr), "rating") == Some(GetOr(e, "rating", Null))
    ensures Get(Projection(e, pyStr), "reviews") == Some(GetOr(e, "reviews", Null))
    ensures Get(Projection(e, pyStr), "media") == Some(GetOr(e, "media", Arr([])))
    ensures Get(Projection(e, pyStr), "related_products") == Some(GetOr(e, "related_products", Arr([])))
  {
    ProjectionFields(e, pyStr, 0);
    ProjectionFields(e, pyStr, 4);
    ProjectionFields(e, pyStr, 5);
    ProjectionFields(e, pyStr, 8);
    ProjectionFields(e, pyStr, 9);
    ProjectionFields(e, pyStr, 10);
    ProjectionFields(e, pyStr, 12);
  }

  /** A non-empty document holding every required field projects without
      error. */
  lemma HelperOfComplete(e: Entries, pyStr: Value -> string)
    requires e != [] && forall i :: 0 <= i < |RequiredFields| ==> HasKey(e, RequiredFields[i])
    ensures ProductHelper(Some(e), pyStr) == Ok(Some(Projection(e, pyStr)))
  {
  }

  /** A required field other than `_id` comes through unchanged. */
  lemma RequiredCopied(e: Entries, pyStr: Value -> string, k: nat)
    requires 0 < k < |RequiredFields| && HasKey(e, RequiredFields[k])
    ensures Get(Projection(e, pyStr), RequiredFields[k]) == Get(e, RequiredFields[k])
  {
    if k <= 3 {
      ProjectionFields(e, pyStr, k);
    } else if k == 4 {
      ProjectionFields(e, pyStr, 6);
    } else if k == 5 {
      ProjectionFields(e, pyStr, 7);
    } else {
      ProjectionFields(e, pyStr, 11);
    }
  }

  // ------------------------------------------------------------ by key

  /** The document matches `{"key": key}`. */
  predicate Matches(doc: Entries, key: string)
  {
    Get(doc, "key") == Some(Str(key))
  }

  /** The position of the first document matching the key, or the number
      of documents when none does. */
  function FindByKey(docs: seq<Entries>, key: string): (i: nat)
    ensures i <= |docs|
    ensures i < |docs| ==> Matches(docs[i], key)
    ensures forall j :: 0 <= j < i ==> !Matches(docs[j], key)
  {
    if docs == [] then 0
    else if Matches(docs[0], key) then 0
    else 1 + FindByKey(docs[1..], key)
  }

  /** `ProductResponse(**None)` */
  const NotAMapping: Raised := PyException("TypeError", "ProductResponse() argument after ** must be a mapping, not NoneType")

  /** The response of update_product once the update has happened: the
      document now matching the key, projected. */
  function Refetched(docs: seq<Entries>, key: string, pyStr: Value -> string): Result<Option<Entries>, Raised>
  {
    var j := FindByKey(docs, key);
    var doc := if j < |docs| then Some(docs[j]) else None;
    match ProductHelper(doc, pyStr)
    case Err(e) => Err(e)
    case Ok(None) => Err(NotAMapping)
    case Ok(Some(out)) => Ok(Some(out))
  }

  /** An update that keeps the key (or does not set one) is found again at
      the same place: the response is the updated document, projected. */
  lemma UpdateRefetchesSame(docs: seq<Entries>, key: string, update: Entries, pyStr: Value -> string)
    requires DistinctKeys(update)
    requires FindByKey(docs, key) < |docs|
    requires Get(update, "key") == None || Get(update, "key") == Some(Str(key))
    ensures var i := FindByKey(docs, key);
            var updated := Update(docs[i], update);
            FindByKey(docs[i := updated], key) == i
            && Refetched(docs[i := updated], key, pyStr)
               == match ProductHelper(Some(updated), pyStr)
                  case Err(e) => Err(e)
                  case Ok(None) => Err(NotAMapping)
                  case Ok(Some(out)) => Ok(Some(out))
  {
    var i := FindByKey(docs, key);
    var updated := Update(docs[i], update);
    var docs' := docs[i := updated];
    UpdateGet(docs[i], update, "key");
    assert Matches(updated, key);
    FindByKeyAt(docs', key, i);
  }

  /** A matching document with no match before it is the one found. */
  lemma {:induction false} FindByKeyAt(docs: seq<Entries>, key: string, i: nat)
    requires i < |docs| && Matches(docs[i], key)
    requires forall j :: 0 <= j < i ==> !Matches(docs[j], key)
    ensures FindByKey(docs, key) == i
    decreases i
  {
    if i > 0 {
      FindByKeyAt(docs[1..], key, i - 1);
    }
  }

  /** The products collection. */
  class ProductCollection {
    var documents: seq<Entries>

    constructor (docs: seq<Entries>)
      ensures documents == docs
    {
      documents := docs;
    }

    /** update_product: `$set` the fields on the first document matching
        the key; None when none matches, else the re-read document,
        projected. */
    method UpdateProduct(key: string, productDict: Entries, pyStr: Value -> string)
      returns (r: Result<Option<Entries>, Raised>)
      modifies this
      ensures var i := FindByKey(old(documents), key);
              if i == |old(documents)| then r == Ok(None) && documents == old(documents)
              else documents == old(documents)[i := Update(old(documents)[i], productDict)]
                   && r == Refetched(documents, key, pyStr)
    {
      var i := FindByKey(documents, key);
      if i == |documents| {
        return Ok(None);
      }
      documents := documents[i := Update(documents[i], productDict)];
      var j := FindByKey(documents, key);
      var updated := if j < |documents| then Some(documents[j]) else None;
      var response := ProductHelper(updated, pyStr);
      match response
      case Err(e) => r := Err(e);
      case Ok(None) => r := Err(NotAMapping);
      case Ok(Some(out)) => r := Ok(Some(out));
    }

    /** delete_product: remove the first document matching the key; true
        exactly when one was removed. */
    method DeleteProduct(key: string) returns (deleted: bool)
      modifies this
      ensures var i := FindByKey(old(documents), key);
              (deleted <==> i < |old(documents)|)
              && documents == if deleted then old(documents)[..i] + old(documents)[i + 1..] else old(documents)
      ensures deleted ==> |documents| == |old(documents)| - 1
    {
      var i := FindByKey(documents, key);
      if i == |documents| {
        return false;
      }
      documents := documents[..i] + documents[i + 1..];
      return true;
    }
  }
}
