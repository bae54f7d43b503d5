/**
 * The Cognito pre-token-generation trigger (event version 2): it writes a
 * fixed `claimsAndScopeOverrideDetails` block into the event's `response`,
 * adding the claim `scp = session:role-any` to both the ID token and the
 * access token, and `aud = cognite-client-id` (a literal, not read from
 * configuration) to the access token only, then returns the same event.
 */
module PreTokenGeneration {
  import opened Wrappers
  import opened Json

  const ScopeClaim := "session:role-any"
  const Audience := "cognite-client-id"
  const DetailsKey := "claimsAndScopeOverrideDetails"

  /** The block written under `event['response']['claimsAndScopeOverrideDetails']`. */
  function OverrideDetails(): (d: Json)
    ensures d.JObject? && d.fields.Keys == {"idTokenGeneration", "accessTokenGeneration"}
    ensures d.fields["idTokenGeneration"].JObject?
         && d.fields["idTokenGeneration"].fields.Keys == {"claimsToAddOrOverride", "claimsToSuppress"}
    ensures d.fields["accessTokenGeneration"].JObject?
         && d.fields["accessTokenGeneration"].fields.Keys
            == {"claimsToAddOrOverride", "claimsToSuppress", "scopesToAdd", "scopesToSuppress"}
    ensures Lookup(d, ["idTokenGeneration", "claimsToAddOrOverride"])
         == Some(JObject(map["scp" := JStr(ScopeClaim)]))
    ensures Lookup(d, ["idTokenGeneration", "claimsToSuppress"]) == Some(JArray([]))
    ensures Lookup(d, ["accessTokenGeneration", "claimsToAddOrOverride"])
         == Some(JObject(map["scp" := JStr(ScopeClaim), "aud" := JStr(Audience)]))
    ensures Lookup(d, ["accessTokenGeneration", "claimsToSuppress"]) == Some(JArray([]))
    ensures Lookup(d, ["accessTokenGeneration", "scopesToAdd"]) == Some(JArray([]))
    ensures Lookup(d, ["accessTokenGeneration", "scopesToSuppress"]) == Some(JArray([]))
  {
    var customClaims := map["scp" := JStr(ScopeClaim)];
    var accessTokenClaims := map["scp" := JStr(ScopeClaim), "aud" := JStr(Audience)];
    JObject(map[
      "idTokenGeneration" := JObject(map[
        "claimsToAddOrOverride" := JObject(customClaims),
        "claimsToSuppress" := JArray([])
      ]),
      "accessTokenGeneration" := JObject(map[
        "claimsToAddOrOverride" := JObject(accessTokenClaims),
        "claimsToSuppress" := JArray([]),
        "scopesToAdd" := JArray([]),
        "scopesToSuppress" := JArray([])
      ])
    ])
  }

  /**
   * The handler can write into `response` when it is missing, `None`, or an
   * object; any other value makes the item assignment raise `TypeError`,
   * which the handler swallows.
   */
  predicate ResponseWritable(event: Dict) {
    "response" !in event || event["response"] == JNull || event["response"].JObject?
  }

  /** The entries of `response` before the block is written. */
  function ResponseBefore(event: Dict): Dict {
    if "response" in event && event["response"].JObject? then event["response"].fields else map[]
  }

  /**
   * The event after `lambda_handler`: `response` always exists; when it could
   * be written it holds the override block in place of any earlier one, with
   * its other entries kept; every other field of the event is unchanged.
   */
  function HandledEvent(event: Dict): (r: Dict)
    ensures "response" in r
    ensures r - {"response"} == event - {"response"}
    ensures ResponseWritable(event) ==>
      && r["response"].JObject?
      && DetailsKey in r["response"].fields
      && r["response"].fields[DetailsKey] == OverrideDetails()
      && r["response"].fields - {DetailsKey} == ResponseBefore(event) - {DetailsKey}
    ensures !ResponseWritable(event) ==> r == event
  {
    if ResponseWritable(event) then
      event["response" := JObject(ResponseBefore(event)[DetailsKey := OverrideDetails()])]
    else event
  }

  /** Running the trigger twice leaves the event as running it once. */
  lemma HandlerIsIdempotent(event: Dict)
    ensures HandledEvent(HandledEvent(event)) == HandledEvent(event)
  {
    var once := HandledEvent(event);
    if ResponseWritable(event) {
      var response := once["response"].fields;
      assert response[DetailsKey := OverrideDetails()] == response;
      assert once["response" := JObject(response)] == once;
    }
  }

  /**
   * Whenever `response` could be written, the issued access token gets `scp`
   * and `aud`, and the ID token gets `scp` and no `aud`.
   */
  lemma ClaimsAfterHandler(event: Dict)
    requires ResponseWritable(event)
    ensures var root := JObject(HandledEvent(event));
      && Lookup(root, ["response", DetailsKey, "accessTokenGeneration", "claimsToAddOrOverride", "scp"])
         == Some(JStr(ScopeClaim))
      && Lookup(root, ["response", DetailsKey, "accessTokenGeneration", "claimsToAddOrOverride", "aud"])
         == Some(JStr(Audience))
      && Lookup(root, ["response", DetailsKey, "idTokenGeneration", "claimsToAddOrOverride", "scp"])
         == Some(JStr(ScopeClaim))
      && Lookup(root, ["response", DetailsKey, "idTokenGeneration", "claimsToAddOrOverride", "aud"])
         == None
  {
    DetailsClaims();
    ClaimAfterHandler(event, "accessTokenGeneration", "scp");
    ClaimAfterHandler(event, "accessTokenGeneration", "aud");
    ClaimAfterHandler(event, "idTokenGeneration", "scp");
    ClaimAfterHandler(event, "idTokenGeneration", "aud");
  }

  /** A claim of the handled event's block is the one `OverrideDetails` holds. */
  lemma ClaimAfterHandler(event: Dict, block: string, claim: string)
    requires ResponseWritable(event)
    ensures Lookup(JObject(HandledEvent(event)), ["response", DetailsKey, block, "claimsToAddOrOverride", claim])
         == Lookup(OverrideDetails(), [block, "claimsToAddOrOverride", claim])
  {
    var path := [block, "claimsToAddOrOverride", claim];
    BlockAfterHandler(event, path);
    assert ["response", DetailsKey] + path == ["response", DetailsKey, block, "claimsToAddOrOverride", claim];
  }

  /** Below `response.claimsAndScopeOverrideDetails`, the handled event is the override block. */
  lemma BlockAfterHandler(event: Dict, path: seq<string>)
    requires ResponseWritable(event)
    ensures Lookup(JObject(HandledEvent(event)), ["response", DetailsKey] + path) == Lookup(OverrideDetails(), path)
  {
    DetailsAfterHandler(event);
    LookupAppend(JObject(HandledEvent(event)), ["response", DetailsKey], path);
  }

  lemma DetailsAfterHandler(event: Dict)
    requires ResponseWritable(event)
    ensures Lookup(JObject(HandledEvent(event)), ["response", DetailsKey]) == Some(OverrideDetails())
  {
    var response := HandledEvent(event)["response"];
    var path: seq<string> := ["response", DetailsKey];
    assert path[0] == "response" && path[1..] == [DetailsKey];
    assert [DetailsKey][1..] == [];
    assert Lookup(response, [DetailsKey]) == Lookup(OverrideDetails(), []);
  }

  lemma DetailsClaims()
    ensures Lookup(OverrideDetails(), ["accessTokenGeneration", "claimsToAddOrOverride", "scp"]) == Some(JStr(ScopeClaim))
    ensures Lookup(OverrideDetails(), ["accessTokenGeneration", "claimsToAddOrOverride", "aud"]) == Some(JStr(Audience))
    ensures Lookup(OverrideDetails(), ["idTokenGeneration", "claimsToAddOrOverride", "scp"]) == Some(JStr(ScopeClaim))
    ensures Lookup(OverrideDetails(), ["idTokenGeneration", "claimsToAddOrOverride", "aud"]) == None
  {
  }

  /** The Lambda event object, a dictionary the handler updates in place. */
  class Event {
    var fields: Dict

    constructor (fields: Dict)
      ensures this.fields == fields
    {
      this.fields := fields;
    }
  }

  /** `lambda_handler`: updates the event in place and returns the same object. */
  method LambdaHandler(event: Event) returns (r: Event)
    modifies event
    ensures r == event
    ensures event.fields == HandledEvent(old(event.fields))
  {
    if "response" !in event.fields || event.fields["response"] == JNull {
      event.fields := event.fields["response" := JObject(map[])];
    }
    match event.fields["response"] {
      case JObject(response) =>
        var details := OverrideDetails();
        event.fields := event.fields["response" := JObject(response[DetailsKey := details])];
      case _ =>
        // Item assignment on a non-dict raises TypeError; the except branch
        // finds `response` present and leaves the event as it is.
    }
    r := event;
  }
}
