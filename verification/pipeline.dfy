/** The translation pipeline (`run_translation`): the completion client
    followed by the pass that maps the loosely typed decoded value into a
    strictly validated response, substituting defaults field by field. */
module Pipeline {
  import opened Wrappers
  import opened Errors
  import opened PyJson
  import opened Text
  import opened Fence
  import opened Schemas
  import opened Completion

  /** The scene reported when the model names none ("other"). */
  const DefaultScene: string := "其他"

  // Reference description of the defaulting pass, stated per key and
  // independently of how the pass computes.

  /** The key is absent or holds a string. */
  predicate StrOrAbsent(m: map<string, Json>, k: string) {
    k !in m || m[k].Str?
  }

  /** The key is absent or holds a value Python reads as false. */
  predicate FalsyOrAbsent(m: map<string, Json>, k: string) {
    k !in m || !Truthy(m[k])
  }

  /** An `info_completion` entry the pass turns into an item. */
  predicate EntryConforms(e: Json) {
    && e.Obj?
    && StrOrAbsent(e.fields, "item")
    && ("status" in e.fields ==> e.fields["status"].Str? && ParseStatus(e.fields["status"].s).Some?)
    && (FalsyOrAbsent(e.fields, "suggested_value") || e.fields["suggested_value"].Str?)
  }

  /** How an item relates to the entry it came from: present values are
      copied, `item` defaults to "", `status` to the pending text, and
      `suggested_value` to "" when absent or false-like. */
  predicate ItemAgrees(e: Json, it: InfoItem) {
    && e.Obj?
    && ("item" in e.fields ==> e.fields["item"] == Str(it.item))
    && ("item" !in e.fields ==> it.item == "")
    && ("status" in e.fields ==> e.fields["status"] == Str(StatusText(it.status)))
    && ("status" !in e.fields ==> it.status == Pending)
    && (FalsyOrAbsent(e.fields, "suggested_value") ==> it.suggestedValue == "")
    && (!FalsyOrAbsent(e.fields, "suggested_value") ==> e.fields["suggested_value"] == Str(it.suggestedValue))
  }

  /** A decoded object the pass accepts. */
  predicate Conforms(m: map<string, Json>) {
    && StrOrAbsent(m, "detected_scene")
    && StrOrAbsent(m, "translated_message")
    && StrOrAbsent(m, "suggestion_for_source")
    && (FalsyOrAbsent(m, "info_completion") ||
        (m["info_completion"].Arr? &&
         forall i :: 0 <= i < |m["info_completion"].elems| ==> EntryConforms(m["info_completion"].elems[i])))
    && (FalsyOrAbsent(m, "risk_alerts") ||
        (m["risk_alerts"].Arr? &&
         forall i :: 0 <= i < |m["risk_alerts"].elems| ==> m["risk_alerts"].elems[i].Str?))
  }

  /** One entry of `info_completion` turned into an `InfoCompletionItem`;
      an entry that is not an object has no `.get`. */
  function DefaultItem(e: Json): (r: Result<InfoItem, Error>)
    ensures r.Success? <==> EntryConforms(e)
    ensures r.Success? ==> ItemAgrees(e, r.value)
    ensures !e.Obj? ==> r == Failure(TypeMismatch)
  {
    if e.Obj? then
      NewInfoItem(
        Some(Get(e.fields, "item", Str(""))),
        Some(Get(e.fields, "status", Str(StatusText(Pending)))),
        Some(Or(Get(e.fields, "suggested_value", Str("")), Str(""))))
    else
      Failure(TypeMismatch)
  }

  /** The defaulting pass of `run_translation` on the decoded value. It
      succeeds exactly on false-like values and on objects the reference
      description accepts; a true-like non-object has no `.get`. */
  function DefaultMap(result: Json): (r: Result<Response, Error>)
    ensures r.Success? <==> !Truthy(result) || (result.Obj? && Conforms(result.fields))
    ensures Truthy(result) && !result.Obj? ==> r == Failure(TypeMismatch)
  {
    var obj := Or(result, Obj(map[]));
    if !obj.Obj? then
      Failure(TypeMismatch)
    else
      var m := obj.fields;
      var items :- DefaultEntries(m);
      NewResponse(
        Some(Get(m, "detected_scene", Str(DefaultScene))),
        Some(Get(m, "translated_message", Str(""))),
        items,
        Some(Or(Get(m, "risk_alerts", Arr([])), Arr([]))),
        Some(Get(m, "suggestion_for_source", Str(""))))
  }

  /** The items of `info_completion`: a false-like or absent list gives none,
      and a list gives one item per entry, in order, when every entry
      conforms; anything else that is true-like cannot be iterated. */
  function DefaultEntries(m: map<string, Json>): (r: Result<seq<InfoItem>, Error>)
    ensures r.Success? <==>
      || FalsyOrAbsent(m, "info_completion")
      || (m["info_completion"].Arr? &&
          forall i :: 0 <= i < |m["info_completion"].elems| ==> EntryConforms(m["info_completion"].elems[i]))
  {
    var entries := Or(Get(m, "info_completion", Arr([])), Arr([]));
    if !entries.Arr? then
      Failure(TypeMismatch)
    else
      MapAll(entries.elems, DefaultItem)
  }

  /** `run_translation`: the completion client, then the defaulting pass. */
  function Translate(complete: ChatCall -> Reply, parse: string -> Option<Json>, prompts: Prompts, q: Request): (t: Trace<Response>)
    ensures 1 <= |t.calls| <= 2
  {
    var c := CallLlm(complete, parse, prompts, q.sourceRole, q.targetRole, q.content);
    match c.outcome
    case Failure(e) => Trace(c.calls, Failure(e))
    case Success(data) => Trace(c.calls, DefaultMap(data))
  }

  /** A decoded value Python reads as false (None, {}, [], 0, "", false) is
      treated as an empty object: every field takes its default. */
  lemma FalsyResultIsAllDefaults(j: Json)
    requires !Truthy(j)
    ensures DefaultMap(j) == Success(Response(DefaultScene, "", [], [], ""))
  {
  }

  /** A decoded value that is true-like but not an object has no `.get`. */
  lemma TruthyNonObjectFails(j: Json)
    requires Truthy(j) && !j.Obj?
    ensures DefaultMap(j) == Failure(TypeMismatch)
  {
  }

  /** The pass succeeds exactly on the objects the reference description
      accepts. */
  lemma DefaultMapSucceedsIff(m: map<string, Json>)
    ensures DefaultMap(Obj(m)).Success? <==> Conforms(m)
  {
  }

  /** What a successful pass returns, field by field: present strings are
      copied, absent ones take their defaults, false-like lists become empty,
      and `info_completion` keeps the length and order of its entries. */
  lemma DefaultMapFields(m: map<string, Json>, r: Response)
    requires DefaultMap(Obj(m)) == Success(r)
    ensures "detected_scene" in m ==> m["detected_scene"] == Str(r.detectedScene)
    ensures "detected_scene" !in m ==> r.detectedScene == DefaultScene
    ensures "translated_message" in m ==> m["translated_message"] == Str(r.translatedMessage)
    ensures "translated_message" !in m ==> r.translatedMessage == ""
    ensures "suggestion_for_source" in m ==> m["suggestion_for_source"] == Str(r.suggestionForSource)
    ensures "suggestion_for_source" !in m ==> r.suggestionForSource == ""
    ensures FalsyOrAbsent(m, "risk_alerts") ==> r.riskAlerts == []
    ensures !FalsyOrAbsent(m, "risk_alerts") ==>
      && m["risk_alerts"].Arr? && |r.riskAlerts| == |m["risk_alerts"].elems|
      && forall i :: 0 <= i < |r.riskAlerts| ==> m["risk_alerts"].elems[i] == Str(r.riskAlerts[i])
    ensures FalsyOrAbsent(m, "info_completion") ==> r.infoCompletion == []
    ensures !FalsyOrAbsent(m, "info_completion") ==>
      && m["info_completion"].Arr? && |r.infoCompletion| == |m["info_completion"].elems|
      && forall i :: 0 <= i < |r.infoCompletion| ==> ItemAgrees(m["info_completion"].elems[i], r.infoCompletion[i])
  {
  }

  /** An explicit `null` for a string field is not replaced by the default
      (only an absent key is), so validation fails. */
  lemma NullStringFieldFails(m: map<string, Json>, k: string)
    requires k == "detected_scene" || k == "translated_message" || k == "suggestion_for_source"
    requires k in m && m[k] == Null
    ensures DefaultMap(Obj(m)).Failure?
  {
  }

  /** For the two list fields, `null` (or any false-like value) is the same
      as leaving the key out. */
  lemma FalsyListIsAbsent(m: map<string, Json>, k: string)
    requires k == "info_completion" || k == "risk_alerts"
    requires k in m && !Truthy(m[k])
    ensures DefaultMap(Obj(m)) == DefaultMap(Obj(m - {k}))
  {
    var m' := m - {k};
    assert Or(Obj(m), Obj(map[])).fields == m;
    assert Or(Obj(m'), Obj(map[])).fields == m';
    assert Or(Get(m, "info_completion", Arr([])), Arr([])) == Or(Get(m', "info_completion", Arr([])), Arr([]));
    assert Or(Get(m, "risk_alerts", Arr([])), Arr([])) == Or(Get(m', "risk_alerts", Arr([])), Arr([]));
    assert Get(m, "detected_scene", Str(DefaultScene)) == Get(m', "detected_scene", Str(DefaultScene));
    assert Get(m, "translated_message", Str("")) == Get(m', "translated_message", Str(""));
    assert Get(m, "suggestion_for_source", Str("")) == Get(m', "suggestion_for_source", Str(""));
  }

  /** Defaulting never alters data that already passes strict validation:
      whatever `TranslateResponse` accepts from the object directly, the
      pass returns unchanged. */
  lemma StrictlyValidPassesUnchanged(m: map<string, Json>, r: Response)
    requires ResponseFromJson(Obj(m)) == Success(r)
    ensures DefaultMap(Obj(m)) == Success(r)
  {
    var a := m["info_completion"].elems;
    var strict := ItemListField(Lookup(m, "info_completion"));
    assert strict.Success? && strict.value == r.infoCompletion;
    forall i | 0 <= i < |a|
      ensures DefaultItem(a[i]) == Success(r.infoCompletion[i])
    {
      StrictItemPassesUnchanged(a[i], r.infoCompletion[i]);
    }
    var obj := Or(Obj(m), Obj(map[]));
    assert obj.fields == m;
    var entries := Or(Get(m, "info_completion", Arr([])), Arr([]));
    assert entries.elems == a;
    var items := MapAll(entries.elems, DefaultItem);
    assert items.Success? && items.value == r.infoCompletion;
    var risks := Or(Get(m, "risk_alerts", Arr([])), Arr([]));
    assert StrListField(Some(risks)) == StrListField(Lookup(m, "risk_alerts"));
  }

  lemma StrictItemPassesUnchanged(e: Json, it: InfoItem)
    requires ItemFromJson(e) == Success(it)
    ensures DefaultItem(e) == Success(it)
  {
  }

  /** A model answer carrying a complete, well-formed response maps to
      exactly that response. */
  lemma WellFormedMapsToItself(r: Response)
    ensures DefaultMap(ResponseToJson(r)) == Success(r)
  {
    ResponseRoundTrip(r);
    StrictlyValidPassesUnchanged(ResponseToJson(r).fields, r);
  }

  /** End to end, the ordinary path: a first answer whose cleaned text decodes
      to any value, partial or not, takes one call, and that value goes
      through the defaulting pass. */
  lemma TranslateFirstDecodes(
    complete: ChatCall -> Reply, parse: string -> Option<Json>, prompts: Prompts, q: Request,
    text: Option<string>, data: Json)
    requires complete(TranslateCall(prompts, q.sourceRole, q.targetRole, q.content)) == Reply(text)
    requires parse(Clean(text)) == Some(data)
    ensures Translate(complete, parse, prompts, q)
         == Trace([TranslateCall(prompts, q.sourceRole, q.targetRole, q.content)], DefaultMap(data))
  {
  }

  /** End to end: a failure of the completion service on the first call ends
      the pipeline with `Upstream` after that one call; no repair is asked. */
  lemma TranslateUpstream(complete: ChatCall -> Reply, parse: string -> Option<Json>, prompts: Prompts, q: Request)
    requires complete(TranslateCall(prompts, q.sourceRole, q.targetRole, q.content)).ServiceError?
    ensures Translate(complete, parse, prompts, q)
         == Trace([TranslateCall(prompts, q.sourceRole, q.targetRole, q.content)], Failure(Upstream))
  {
  }

  /** End to end: a failure of the completion service on the repair call ends
      the pipeline with `Upstream` after both calls. */
  lemma TranslateRepairUpstream(
    complete: ChatCall -> Reply, parse: string -> Option<Json>, prompts: Prompts, q: Request,
    text: Option<string>)
    requires complete(TranslateCall(prompts, q.sourceRole, q.targetRole, q.content)) == Reply(text)
    requires parse(Clean(text)).None?
    requires complete(RepairCall(Clean(text))).ServiceError?
    ensures Translate(complete, parse, prompts, q)
         == Trace([TranslateCall(prompts, q.sourceRole, q.targetRole, q.content), RepairCall(Clean(text))], Failure(Upstream))
  {
  }

  /** End to end: a first answer whose cleaned text decodes to a well-formed
      response yields that response after exactly one call. */
  lemma TranslateVerbatim(
    complete: ChatCall -> Reply, parse: string -> Option<Json>, prompts: Prompts, q: Request,
    text: Option<string>, r: Response)
    requires complete(TranslateCall(prompts, q.sourceRole, q.targetRole, q.content)) == Reply(text)
    requires parse(Clean(text)) == Some(ResponseToJson(r))
    ensures Translate(complete, parse, prompts, q)
         == Trace([TranslateCall(prompts, q.sourceRole, q.targetRole, q.content)], Success(r))
  {
    FirstDecodeWins(complete, parse, prompts, q.sourceRole, q.targetRole, q.content, text, ResponseToJson(r));
    WellFormedMapsToItself(r);
  }

  /** End to end: the same holds when the answer is wrapped in a ```json
      fence, for a decoder that ignores surrounding whitespace. */
  lemma TranslateFenced(
    complete: ChatCall -> Reply, parse: string -> Option<Json>, prompts: Prompts, q: Request,
    c: string, r: Response)
    requires IgnoresPadding(parse)
    requires c != [] && !IsSpace(c[0])
    requires complete(TranslateCall(prompts, q.sourceRole, q.targetRole, q.content)) == Reply(Some(JsonFenced(c)))
    requires parse(c) == Some(ResponseToJson(r))
    ensures Translate(complete, parse, prompts, q)
         == Trace([TranslateCall(prompts, q.sourceRole, q.targetRole, q.content)], Success(r))
  {
    WrappedParsesAsPayload(parse, c);
    TranslateVerbatim(complete, parse, prompts, q, Some(JsonFenced(c)), r);
  }

  /** End to end: when the first answer does not decode, the repair call
      receives its cleaned text, and the repaired value is what the
      defaulting pass sees. */
  lemma TranslateRepaired(
    complete: ChatCall -> Reply, parse: string -> Option<Json>, prompts: Prompts, q: Request,
    text: Option<string>, repaired: Option<string>, data: Json)
    requires complete(TranslateCall(prompts, q.sourceRole, q.targetRole, q.content)) == Reply(text)
    requires parse(Clean(text)).None?
    requires complete(RepairCall(Clean(text))) == Reply(repaired)
    requires parse(Clean(repaired)) == Some(data)
    ensures Translate(complete, parse, prompts, q)
         == Trace([TranslateCall(prompts, q.sourceRole, q.targetRole, q.content), RepairCall(Clean(text))], DefaultMap(data))
  {
  }

  /** End to end: when neither answer decodes the pipeline fails with a
      decode error after exactly two calls and builds no response. */
  lemma TranslateBothUndecodable(
    complete: ChatCall -> Reply, parse: string -> Option<Json>, prompts: Prompts, q: Request,
    text: Option<string>, repaired: Option<string>)
    requires complete(TranslateCall(prompts, q.sourceRole, q.targetRole, q.content)) == Reply(text)
    requires parse(Clean(text)).None?
    requires complete(RepairCall(Clean(text))) == Reply(repaired)
    requires parse(Clean(repaired)).None?
    ensures Translate(complete, parse, prompts, q)
         == Trace([TranslateCall(prompts, q.sourceRole, q.targetRole, q.content), RepairCall(Clean(text))], Failure(ParseError))
  {
  }
}
