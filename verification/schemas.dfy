/** The request and response records of the service and the field checks
    pydantic applies when they are built: string fields accept only JSON
    strings, literal fields accept only their listed values, a field with a
    default may be omitted, every other field is required. */
module Schemas {
  import opened Wrappers
  import opened Errors
  import opened PyJson

  /** `RoleType`: the five personas a message can come from or go to. */
  datatype Role = ProductManager | Developer | Designer | Operator | Executive

  function RoleName(r: Role): string {
    match r
    case ProductManager => "product_manager"
    case Developer => "developer"
    case Designer => "designer"
    case Operator => "operator"
    case Executive => "executive"
  }

  /** The literal check on a role: a string is accepted exactly when it is
      the name of a role, and then it denotes that role. */
  function ParseRole(s: string): (r: Option<Role>)
    ensures forall x :: r == Some(x) <==> RoleName(x) == s
  {
    if s == "product_manager" then Some(ProductManager)
    else if s == "developer" then Some(Developer)
    else if s == "designer" then Some(Designer)
    else if s == "operator" then Some(Operator)
    else if s == "executive" then Some(Executive)
    else None
  }

  /** The status of an info-completion item: still to be confirmed, or
      inferred from context. */
  datatype Status = Pending | Inferred

  function StatusText(s: Status): string {
    match s
    case Pending => "待确认"
    case Inferred => "已推断"
  }

  /** The literal check on a status: only the two texts are accepted. */
  function ParseStatus(s: string): (r: Option<Status>)
    ensures forall x :: r == Some(x) <==> StatusText(x) == s
  {
    if s == "待确认" then Some(Pending)
    else if s == "已推断" then Some(Inferred)
    else None
  }

  /** `InfoCompletionItem`. */
  datatype InfoItem = InfoItem(item: string, status: Status, suggestedValue: string)

  /** `TranslateRequest`. */
  datatype Request = Request(sourceRole: Role, targetRole: Role, content: string)

  /** `TranslateResponse`: five fields, none optional. */
  datatype Response = Response(
    detectedScene: string,
    translatedMessage: string,
    infoCompletion: seq<InfoItem>,
    riskAlerts: seq<string>,
    suggestionForSource: string)

  // Field checks. An argument of `None` is a field that was not supplied.

  /** A required `str` field. */
  function StrField(v: Option<Json>): (r: Result<string, Error>)
    ensures r.Success? <==> v.Some? && v.value.Str?
    ensures r.Success? ==> v == Some(Str(r.value))
    ensures r.Failure? ==> r.error == Invalid
  {
    match v
    case Some(Str(s)) => Success(s)
    case _ => Failure(Invalid)
  }

  /** A required `RoleType` field. */
  function RoleField(v: Option<Json>): (r: Result<Role, Error>)
    ensures forall x :: r == Success(x) <==> v == Some(Str(RoleName(x)))
    ensures r.Failure? ==> r.error == Invalid
  {
    match v
    case Some(Str(s)) =>
      (match ParseRole(s)
       case Some(x) => Success(x)
       case None => Failure(Invalid))
    case _ => Failure(Invalid)
  }

  /** A required status literal field. */
  function StatusField(v: Option<Json>): (r: Result<Status, Error>)
    ensures forall x :: r == Success(x) <==> v == Some(Str(StatusText(x)))
    ensures r.Failure? ==> r.error == Invalid
  {
    match v
    case Some(Str(s)) =>
      (match ParseStatus(s)
       case Some(x) => Success(x)
       case None => Failure(Invalid))
    case _ => Failure(Invalid)
  }

  function StrElem(j: Json): Result<string, Error> {
    if j.Str? then Success(j.s) else Failure(Invalid)
  }

  /** A required `List[str]` field: a JSON array all of whose elements are
      strings, kept in order. */
  function StrListField(v: Option<Json>): (r: Result<seq<string>, Error>)
    ensures r.Success? <==>
      v.Some? && v.value.Arr? && forall i :: 0 <= i < |v.value.elems| ==> v.value.elems[i].Str?
    ensures r.Success? ==>
      |r.value| == |v.value.elems| && forall i :: 0 <= i < |r.value| ==> v.value.elems[i] == Str(r.value[i])
    ensures r.Failure? ==> r.error == Invalid
  {
    match v
    case Some(Arr(a)) => MapAll(a, StrElem)
    case _ => Failure(Invalid)
  }

  /** `InfoCompletionItem(item=..., status=..., suggested_value=...)`:
      `item` and `status` are required, `suggested_value` defaults to "". */
  function NewInfoItem(item: Option<Json>, status: Option<Json>, suggested: Option<Json>): (r: Result<InfoItem, Error>)
    ensures r.Success? <==>
      && item.Some? && item.value.Str?
      && status.Some? && status.value.Str? && ParseStatus(status.value.s).Some?
      && (suggested.None? || suggested.value.Str?)
    ensures r.Success? ==>
      && item == Some(Str(r.value.item))
      && status == Some(Str(StatusText(r.value.status)))
      && (suggested.None? ==> r.value.suggestedValue == "")
      && (suggested.Some? ==> suggested == Some(Str(r.value.suggestedValue)))
    ensures r.Failure? ==> r.error == Invalid
  {
    var i :- StrField(item);
    var s :- StatusField(status);
    var v :- if suggested.None? then Success("") else StrField(suggested);
    Success(InfoItem(i, s, v))
  }

  /** Validation of a JSON object as an `InfoCompletionItem`. */
  function ItemFromJson(j: Json): Result<InfoItem, Error> {
    if j.Obj? then
      NewInfoItem(Lookup(j.fields, "item"), Lookup(j.fields, "status"), Lookup(j.fields, "suggested_value"))
    else
      Failure(Invalid)
  }

  function ItemToJson(it: InfoItem): Json {
    Obj(map[
      "item" := Str(it.item),
      "status" := Str(StatusText(it.status)),
      "suggested_value" := Str(it.suggestedValue)])
  }

  /** A required `List[InfoCompletionItem]` field. */
  function ItemListField(v: Option<Json>): (r: Result<seq<InfoItem>, Error>)
    ensures r.Success? <==> v.Some? && v.value.Arr? && forall i :: 0 <= i < |v.value.elems| ==> ItemFromJson(v.value.elems[i]).Success?
    ensures r.Success? ==> v.Some? && v.value.Arr? && |r.value| == |v.value.elems|
    ensures r.Success? ==> forall i :: 0 <= i < |r.value| ==> ItemFromJson(v.value.elems[i]) == Success(r.value[i])
    ensures r.Failure? ==> r.error == Invalid
  {
    match v
    case Some(Arr(a)) => MapAll(a, ItemFromJson)
    case _ => Failure(Invalid)
  }

  /** `TranslateResponse(...)` from its five keyword arguments; the list of
      items is already built. Either every field checks and the whole record
      exists, or nothing is built. */
  function NewResponse(
    scene: Option<Json>, message: Option<Json>, items: seq<InfoItem>,
    risks: Option<Json>, suggestion: Option<Json>): (r: Result<Response, Error>)
    ensures r.Success? <==>
      && StrField(scene).Success? && StrField(message).Success?
      && StrListField(risks).Success? && StrField(suggestion).Success?
    ensures r.Success? ==>
      && scene == Some(Str(r.value.detectedScene))
      && message == Some(Str(r.value.translatedMessage))
      && r.value.infoCompletion == items
      && StrListField(risks) == Success(r.value.riskAlerts)
      && suggestion == Some(Str(r.value.suggestionForSource))
    ensures r.Failure? ==> r.error == Invalid
  {
    var s :- StrField(scene);
    var m :- StrField(message);
    var a :- StrListField(risks);
    var g :- StrField(suggestion);
    Success(Response(s, m, items, a, g))
  }

  /** Validation of a JSON object as a `TranslateResponse`. */
  function ResponseFromJson(j: Json): Result<Response, Error> {
    if j.Obj? then
      var items :- ItemListField(Lookup(j.fields, "info_completion"));
      NewResponse(
        Lookup(j.fields, "detected_scene"), Lookup(j.fields, "translated_message"), items,
        Lookup(j.fields, "risk_alerts"), Lookup(j.fields, "suggestion_for_source"))
    else
      Failure(Invalid)
  }

  /** A list of strings as a JSON array; it validates back to the same list. */
  function StrArray(a: seq<string>): (r: Json)
    ensures StrListField(Some(r)) == Success(a)
  {
    var r := Arr(seq(|a|, i requires 0 <= i < |a| => Str(a[i])));
    var v := StrListField(Some(r));
    assert v.Success? && |v.value| == |a|;
    assert forall i :: 0 <= i < |a| ==> v.value[i] == a[i];
    assert v.value == a;
    r
  }

  /** A list of items as a JSON array; it validates back to the same list. */
  function ItemArray(a: seq<InfoItem>): (r: Json)
    ensures ItemListField(Some(r)) == Success(a)
  {
    var r := Arr(seq(|a|, i requires 0 <= i < |a| => ItemToJson(a[i])));
    ItemsRoundTrip(a);
    r
  }

  lemma ItemsRoundTrip(a: seq<InfoItem>)
    ensures ItemListField(Some(Arr(seq(|a|, i requires 0 <= i < |a| => ItemToJson(a[i]))))) == Success(a)
  {
    var r := Arr(seq(|a|, i requires 0 <= i < |a| => ItemToJson(a[i])));
    forall i | 0 <= i < |a|
      ensures ItemFromJson(r.elems[i]) == Success(a[i])
    {
      ItemRoundTrip(a[i]);
    }
    var v := ItemListField(Some(r));
    assert v.Success? && |v.value| == |a|;
    assert forall i :: 0 <= i < |a| ==> v.value[i] == a[i];
    assert v.value == a;
  }

  /** The JSON object a response serialises to. */
  function ResponseToJson(r: Response): Json {
    Obj(map[
      "detected_scene" := Str(r.detectedScene),
      "translated_message" := Str(r.translatedMessage),
      "info_completion" := ItemArray(r.infoCompletion),
      "risk_alerts" := StrArray(r.riskAlerts),
      "suggestion_for_source" := Str(r.suggestionForSource)])
  }

  /** Validation of a JSON object as a `TranslateRequest`: the three fields
      are required, the roles must be role names, `content` may be any string,
      the empty one included; other keys are ignored. */
  function RequestFromJson(j: Json): (r: Result<Request, Error>)
    ensures forall q :: r == Success(q) <==>
      && j.Obj?
      && Lookup(j.fields, "source_role") == Some(Str(RoleName(q.sourceRole)))
      && Lookup(j.fields, "target_role") == Some(Str(RoleName(q.targetRole)))
      && Lookup(j.fields, "content") == Some(Str(q.content))
    ensures r.Failure? ==> r.error == Invalid
  {
    if j.Obj? then
      var s :- RoleField(Lookup(j.fields, "source_role"));
      var t :- RoleField(Lookup(j.fields, "target_role"));
      var c :- StrField(Lookup(j.fields, "content"));
      Success(Request(s, t, c))
    else
      Failure(Invalid)
  }

  function RequestToJson(q: Request): Json {
    Obj(map[
      "source_role" := Str(RoleName(q.sourceRole)),
      "target_role" := Str(RoleName(q.targetRole)),
      "content" := Str(q.content)])
  }

  lemma RequestRoundTrip(q: Request)
    ensures RequestFromJson(RequestToJson(q)) == Success(q)
  {
  }

  /** Empty content is valid: any object with two role names and `""` as
      content is accepted, whatever else it holds. */
  lemma EmptyContentAccepted(m: map<string, Json>, s: Role, t: Role)
    requires "source_role" in m && m["source_role"] == Str(RoleName(s))
    requires "target_role" in m && m["target_role"] == Str(RoleName(t))
    requires "content" in m && m["content"] == Str("")
    ensures RequestFromJson(Obj(m)) == Success(Request(s, t, ""))
  {
  }

  /** A request naming a role outside the five is rejected. */
  lemma UnknownRoleRejected(j: Json, key: string)
    requires key == "source_role" || key == "target_role"
    requires j.Obj? && key in j.fields
    requires forall x :: j.fields[key] != Str(RoleName(x))
    ensures RequestFromJson(j).Failure?
  {
  }

  lemma ItemRoundTrip(it: InfoItem)
    ensures ItemFromJson(ItemToJson(it)) == Success(it)
  {
  }

  /** An item that omits `suggested_value` gets the empty string. */
  lemma SuggestedValueDefaults(item: string, s: Status)
    ensures ItemFromJson(Obj(map["item" := Str(item), "status" := Str(StatusText(s))])) == Success(InfoItem(item, s, ""))
  {
  }

  /** Only the two status texts build an item. */
  lemma StatusMustBeLiteral(j: Json)
    requires ItemFromJson(j).Success?
    ensures j.Obj? && "status" in j.fields
    ensures j.fields["status"] == Str("待确认") || j.fields["status"] == Str("已推断")
  {
  }

  /** A response serialised and validated again is the same response. */
  lemma ResponseRoundTrip(r: Response)
    ensures ResponseFromJson(ResponseToJson(r)) == Success(r)
  {
  }

  /** Every one of the five fields is required. */
  lemma ResponseFieldsRequired(m: map<string, Json>, k: string)
    requires k in {"detected_scene", "translated_message", "info_completion", "risk_alerts", "suggestion_for_source"}
    requires k !in m
    ensures ResponseFromJson(Obj(m)).Failure?
  {
  }
}
