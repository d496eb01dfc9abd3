/**
 * The request and response bodies of the audit API (pydantic models) and
 * the validation that turns a parsed JSON body into one of them: required
 * fields must be present with the right type, optional ones default to
 * absent, and a rule list is either all strings or all rule items.
 */
module AuditModels {
  import opened Wrappers
  import opened JsonValues

  /** `Union[int, str]` */
  datatype RuleId = IntId(n: int) | StrId(s: string)

  datatype RuleItem = RuleItem(rule: string, ruleId: Option<RuleId> := None)

  /** `RuleListType = Union[List[str], List[RuleItem]]` */
  datatype RuleList = PlainRules(rules: seq<string>) | ItemRules(items: seq<RuleItem>)

  datatype ParameterRule = ParameterRule(id: RuleId, ruleList: RuleList, name: Option<string> := None)

  datatype AuditRequest = AuditRequest(
    audioUrl: string,
    parameter: seq<ParameterRule>,
    transcription: Option<string> := None,
    sampleId: Option<string> := None,
    audioFileId: Option<string> := None,
    userUuid: Option<string> := None)

  datatype SingleRuleRequest = SingleRuleRequest(ruleId: RuleId, rule: string, transcript: string)

  datatype SingleRuleResponse = SingleRuleResponse(
    ruleId: RuleId, rule: string, result: string, reason: string, confidenceScore: real := 0.0)

  /** Why a body is rejected: the first field, in declaration order, that is missing or ill-typed. */
  datatype Invalid = Missing(field: string) | WrongType(field: string)

  // ---------------------------------------------------------------- field readers

  function RuleIdFrom(j: Json, field: string): Result<RuleId, Invalid> {
    match j
    case JInt(n) => Ok(IntId(n))
    case JString(s) => Ok(StrId(s))
    case _ => Err(WrongType(field))
  }

  function RequiredRuleId(f: map<string, Json>, field: string): Result<RuleId, Invalid> {
    if field !in f then Err(Missing(field)) else RuleIdFrom(f[field], field)
  }

  function RequiredStr(f: map<string, Json>, field: string): Result<string, Invalid> {
    if field !in f then Err(Missing(field))
    else if f[field].JString? then Ok(f[field].s)
    else Err(WrongType(field))
  }

  /** An `Optional[...] = None` field: absent or `null` is `None`. */
  function OptionalStr(f: map<string, Json>, field: string): Result<Option<string>, Invalid> {
    if field !in f || f[field].JNull? then Ok(None)
    else if f[field].JString? then Ok(Some(f[field].s))
    else Err(WrongType(field))
  }

  function OptionalRuleId(f: map<string, Json>, field: string): Result<Option<RuleId>, Invalid> {
    if field !in f || f[field].JNull? then Ok(None)
    else match RuleIdFrom(f[field], field)
      case Ok(id) => Ok(Some(id))
      case Err(e) => Err(e)
  }

  // ---------------------------------------------------------------- models

  function RuleItemFrom(j: Json): (r: Result<RuleItem, Invalid>)
    ensures r.Ok? ==> j.JDict? && "rule" in j.fields && j.fields["rule"] == JString(r.value.rule)
    ensures r.Ok? && "ruleId" !in j.fields ==> r.value.ruleId.None?
  {
    if !j.JDict? then Err(WrongType("RuleItem"))
    else match (OptionalRuleId(j.fields, "ruleId"), RequiredStr(j.fields, "rule"))
      case (Err(e), _) => Err(e)
      case (_, Err(e)) => Err(e)
      case (Ok(id), Ok(rule)) => Ok(RuleItem(rule, id))
  }

  function StringsFrom(items: seq<Json>): (r: Option<seq<string>>)
    ensures r.Some? <==> forall i :: 0 <= i < |items| ==> items[i].JString?
    ensures r.Some? ==> |r.value| == |items| && forall i :: 0 <= i < |items| ==> items[i] == JString(r.value[i])
  {
    if items == [] then Some([])
    else if !items[0].JString? then None
    else match StringsFrom(items[1..])
      case Some(rest) => Some([items[0].s] + rest)
      case None => None
  }

  function RuleItemsFrom(items: seq<Json>): (r: Result<seq<RuleItem>, Invalid>)
    ensures r.Ok? <==> forall i :: 0 <= i < |items| ==> RuleItemFrom(items[i]).Ok?
    ensures r.Ok? ==> |r.value| == |items| && forall i :: 0 <= i < |items| ==> RuleItemFrom(items[i]) == Ok(r.value[i])
  {
    if items == [] then Ok([])
    else match (RuleItemFrom(items[0]), RuleItemsFrom(items[1..]))
      case (Err(e), _) => Err(e)
      case (_, Err(e)) => Err(e)
      case (Ok(item), Ok(rest)) => Ok([item] + rest)
  }

  /** The union is tried in declaration order: a list of strings first, then a list of rule items. */
  function RuleListFrom(j: Json): (r: Result<RuleList, Invalid>)
    ensures r.Err? ==> r.error == WrongType("ruleList")
    ensures r.Ok? ==> j.JList?
    ensures j.JList? && (forall i :: 0 <= i < |j.items| ==> j.items[i].JString?) ==> r.Ok? && r.value.PlainRules?
    ensures r.Ok? && r.value.PlainRules? ==>
      |r.value.rules| == |j.items| && forall i :: 0 <= i < |j.items| ==> j.items[i] == JString(r.value.rules[i])
    ensures r.Ok? && r.value.ItemRules? ==>
      && (exists i :: 0 <= i < |j.items| && !j.items[i].JString?)
      && |r.value.items| == |j.items|
      && forall i :: 0 <= i < |j.items| ==> RuleItemFrom(j.items[i]) == Ok(r.value.items[i])
  {
    if !j.JList? then Err(WrongType("ruleList"))
    else match StringsFrom(j.items)
      case Some(rules) => Ok(PlainRules(rules))
      case None =>
        match RuleItemsFrom(j.items)
        case Ok(items) => Ok(ItemRules(items))
        case Err(_) => Err(WrongType("ruleList"))
  }

  function ParameterRuleFrom(j: Json): (r: Result<ParameterRule, Invalid>)
    ensures r.Ok? ==> j.JDict? && "id" in j.fields && "ruleList" in j.fields
    ensures r.Ok? && "name" !in j.fields ==> r.value.name.None?
  {
    if !j.JDict? then Err(WrongType("ParameterRule"))
    else
      var f := j.fields;
      match (RequiredRuleId(f, "id"), OptionalStr(f, "name"))
      case (Err(e), _) => Err(e)
      case (_, Err(e)) => Err(e)
      case (Ok(id), Ok(name)) =>
        if "ruleList" !in f then Err(Missing("ruleList"))
        else match RuleListFrom(f["ruleList"])
          case Err(e) => Err(e)
          case Ok(rl) => Ok(ParameterRule(id, rl, name))
  }

  function ParametersFrom(items: seq<Json>): Result<seq<ParameterRule>, Invalid> {
    if items == [] then Ok([])
    else match (ParameterRuleFrom(items[0]), ParametersFrom(items[1..]))
      case (Err(e), _) => Err(e)
      case (_, Err(e)) => Err(e)
      case (Ok(p), Ok(rest)) => Ok([p] + rest)
  }

  function AuditRequestFrom(j: Json): (r: Result<AuditRequest, Invalid>)
    ensures r.Ok? ==> j.JDict? && "audioUrl" in j.fields && "parameter" in j.fields
    ensures r.Ok? && "transcription" !in j.fields ==> r.value.transcription.None?
    ensures r.Ok? && "sampleId" !in j.fields ==> r.value.sampleId.None?
    ensures r.Ok? && "audioFileId" !in j.fields ==> r.value.audioFileId.None?
    ensures r.Ok? && "userUuid" !in j.fields ==> r.value.userUuid.None?
  {
    if !j.JDict? then Err(WrongType("AuditRequest"))
    else
      var f := j.fields;
      match (RequiredStr(f, "audioUrl"), OptionalStr(f, "transcription"), OptionalStr(f, "sampleId"),
             OptionalStr(f, "audioFileId"), OptionalStr(f, "userUuid"))
      case (Err(e), _, _, _, _) => Err(e)
      case (_, Err(e), _, _, _) => Err(e)
      case (_, _, Err(e), _, _) => Err(e)
      case (_, _, _, Err(e), _) => Err(e)
      case (_, _, _, _, Err(e)) => Err(e)
      case (Ok(url), Ok(tr), Ok(sid), Ok(fid), Ok(uid)) =>
        if "parameter" !in f then Err(Missing("parameter"))
        else if !f["parameter"].JList? then Err(WrongType("parameter"))
        else match ParametersFrom(f["parameter"].items)
          case Err(e) => Err(e)
          case Ok(ps) => Ok(AuditRequest(url, ps, tr, sid, fid, uid))
  }

  function SingleRuleRequestFrom(j: Json): (r: Result<SingleRuleRequest, Invalid>)
    ensures r.Ok? <==>
      && j.JDict? && "ruleId" in j.fields && "rule" in j.fields && "transcript" in j.fields
      && (j.fields["ruleId"].JInt? || j.fields["ruleId"].JString?)
      && j.fields["rule"].JString? && j.fields["transcript"].JString?
  {
    if !j.JDict? then Err(WrongType("SingleRuleRequest"))
    else match (RequiredRuleId(j.fields, "ruleId"), RequiredStr(j.fields, "rule"), RequiredStr(j.fields, "transcript"))
      case (Err(e), _, _) => Err(e)
      case (_, Err(e), _) => Err(e)
      case (_, _, Err(e)) => Err(e)
      case (Ok(id), Ok(rule), Ok(t)) => Ok(SingleRuleRequest(id, rule, t))
  }

  /** A `float` field: JSON integers are accepted as floats. */
  function RealFrom(j: Json, field: string): Result<real, Invalid> {
    match j
    case JReal(r) => Ok(r)
    case JInt(n) => Ok(n as real)
    case _ => Err(WrongType(field))
  }

  function SingleRuleResponseFrom(j: Json): (r: Result<SingleRuleResponse, Invalid>)
    ensures r.Ok? ==> j.JDict?
    ensures r.Ok? && "confidenceScore" !in j.fields ==> r.value.confidenceScore == 0.0
  {
    if !j.JDict? then Err(WrongType("SingleRuleResponse"))
    else
      var f := j.fields;
      match (RequiredRuleId(f, "ruleId"), RequiredStr(f, "rule"), RequiredStr(f, "result"), RequiredStr(f, "reason"))
      case (Err(e), _, _, _) => Err(e)
      case (_, Err(e), _, _) => Err(e)
      case (_, _, Err(e), _) => Err(e)
      case (_, _, _, Err(e)) => Err(e)
      case (Ok(id), Ok(rule), Ok(res), Ok(reason)) =>
        if "confidenceScore" !in f then Ok(SingleRuleResponse(id, rule, res, reason))
        else match RealFrom(f["confidenceScore"], "confidenceScore")
          case Err(e) => Err(e)
          case Ok(c) => Ok(SingleRuleResponse(id, rule, res, reason, c))
  }

  // ---------------------------------------------------------------- serialisation

  function RuleIdJson(id: RuleId): Json {
    match id
    case IntId(n) => JInt(n)
    case StrId(s) => JString(s)
  }

  function OptionalJson(o: Option<string>): Json {
    if o.Some? then JString(o.value) else JNull
  }

  function RuleItemJson(item: RuleItem): Json {
    JDict(map["ruleId" := if item.ruleId.Some? then RuleIdJson(item.ruleId.value) else JNull,
              "rule" := JString(item.rule)])
  }

  function RuleListJson(rl: RuleList): Json {
    match rl
    case PlainRules(rules) => JList(seq(|rules|, i requires 0 <= i < |rules| => JString(rules[i])))
    case ItemRules(items) => JList(seq(|items|, i requires 0 <= i < |items| => RuleItemJson(items[i])))
  }

  function ParameterRuleJson(p: ParameterRule): Json {
    JDict(map["id" := RuleIdJson(p.id), "name" := OptionalJson(p.name), "ruleList" := RuleListJson(p.ruleList)])
  }

  function ParametersJson(ps: seq<ParameterRule>): seq<Json> {
    seq(|ps|, i requires 0 <= i < |ps| => ParameterRuleJson(ps[i]))
  }

  function AuditRequestJson(r: AuditRequest): Json {
    JDict(map["audioUrl" := JString(r.audioUrl), "transcription" := OptionalJson(r.transcription),
              "sampleId" := OptionalJson(r.sampleId), "audioFileId" := OptionalJson(r.audioFileId),
              "userUuid" := OptionalJson(r.userUuid), "parameter" := JList(ParametersJson(r.parameter))])
  }

  function SingleRuleRequestJson(r: SingleRuleRequest): Json {
    JDict(map["ruleId" := RuleIdJson(r.ruleId), "rule" := JString(r.rule), "transcript" := JString(r.transcript)])
  }

  function SingleRuleResponseJson(r: SingleRuleResponse): Json {
    JDict(map["ruleId" := RuleIdJson(r.ruleId), "rule" := JString(r.rule), "result" := JString(r.result),
              "reason" := JString(r.reason), "confidenceScore" := JReal(r.confidenceScore)])
  }

  // ---------------------------------------------------------------- properties

  /**
   * An empty list matches `List[str]`, the first member of the union, so a
   * rule list of items survives serialisation only when it is not empty.
   */
  predicate Distinguishable(rl: RuleList) {
    rl.PlainRules? || rl.items != []
  }

  lemma RuleItemRoundTrip(item: RuleItem)
    ensures RuleItemFrom(RuleItemJson(item)) == Ok(item)
  {
    var f := RuleItemJson(item).fields;
    assert OptionalRuleId(f, "ruleId") == Ok(item.ruleId);
    assert RequiredStr(f, "rule") == Ok(item.rule);
  }

  lemma {:induction false} StringsRoundTrip(rules: seq<string>)
    ensures StringsFrom(seq(|rules|, i requires 0 <= i < |rules| => JString(rules[i]))) == Some(rules)
    decreases |rules|
  {
    if rules != [] {
      var js := seq(|rules|, i requires 0 <= i < |rules| => JString(rules[i]));
      assert js[1..] == seq(|rules[1..]|, i requires 0 <= i < |rules[1..]| => JString(rules[1..][i]));
      StringsRoundTrip(rules[1..]);
      assert [rules[0]] + rules[1..] == rules;
    }
  }

  lemma {:induction false} RuleItemsRoundTrip(items: seq<RuleItem>)
    ensures RuleItemsFrom(seq(|items|, i requires 0 <= i < |items| => RuleItemJson(items[i]))) == Ok(items)
    decreases |items|
  {
    if items != [] {
      var js := seq(|items|, i requires 0 <= i < |items| => RuleItemJson(items[i]));
      assert js[1..] == seq(|items[1..]|, i requires 0 <= i < |items[1..]| => RuleItemJson(items[1..][i]));
      RuleItemRoundTrip(items[0]);
      RuleItemsRoundTrip(items[1..]);
      assert [items[0]] + items[1..] == items;
    }
  }

  /** A rule list reads back as itself, unless it is an empty list of items. */
  lemma RuleListRoundTrip(rl: RuleList)
    ensures Distinguishable(rl) ==> RuleListFrom(RuleListJson(rl)) == Ok(rl)
    ensures !Distinguishable(rl) ==> RuleListFrom(RuleListJson(rl)) == Ok(PlainRules([]))
  {
    match rl
    case PlainRules(rules) => StringsRoundTrip(rules);
    case ItemRules(items) =>
      var js := RuleListJson(rl).items;
      if items != [] {
        assert !js[0].JString?;
        RuleItemsRoundTrip(items);
      }
  }

  lemma ParameterRuleRoundTrip(p: ParameterRule)
    requires Distinguishable(p.ruleList)
    ensures ParameterRuleFrom(ParameterRuleJson(p)) == Ok(p)
  {
    var f := ParameterRuleJson(p).fields;
    RuleListRoundTrip(p.ruleList);
    assert RequiredRuleId(f, "id") == Ok(p.id);
    assert OptionalStr(f, "name") == Ok(p.name);
  }

  predicate AllDistinguishable(ps: seq<ParameterRule>) {
    forall i :: 0 <= i < |ps| ==> Distinguishable(ps[i].ruleList)
  }

  lemma {:induction false} ParametersRoundTrip(ps: seq<ParameterRule>)
    requires AllDistinguishable(ps)
    ensures ParametersFrom(ParametersJson(ps)) == Ok(ps)
    decreases |ps|
  {
    if ps != [] {
      assert ParametersJson(ps)[1..] == ParametersJson(ps[1..]);
      ParameterRuleRoundTrip(ps[0]);
      ParametersRoundTrip(ps[1..]);
      assert [ps[0]] + ps[1..] == ps;
    }
  }

  /** Serialising a request and validating it again gives the same request. */
  lemma AuditRequestRoundTrip(r: AuditRequest)
    requires AllDistinguishable(r.parameter)
    ensures AuditRequestFrom(AuditRequestJson(r)) == Ok(r)
  {
    var f := AuditRequestJson(r).fields;
    ParametersRoundTrip(r.parameter);
    assert RequiredStr(f, "audioUrl") == Ok(r.audioUrl);
    assert OptionalStr(f, "transcription") == Ok(r.transcription);
    assert OptionalStr(f, "sampleId") == Ok(r.sampleId);
    assert OptionalStr(f, "audioFileId") == Ok(r.audioFileId);
    assert OptionalStr(f, "userUuid") == Ok(r.userUuid);
  }

  lemma SingleRuleRequestRoundTrip(r: SingleRuleRequest)
    ensures SingleRuleRequestFrom(SingleRuleRequestJson(r)) == Ok(r)
  {
    var f := SingleRuleRequestJson(r).fields;
    assert RequiredRuleId(f, "ruleId") == Ok(r.ruleId);
    assert RequiredStr(f, "rule") == Ok(r.rule);
  }

  lemma SingleRuleResponseRoundTrip(r: SingleRuleResponse)
    ensures SingleRuleResponseFrom(SingleRuleResponseJson(r)) == Ok(r)
  {
    var f := SingleRuleResponseJson(r).fields;
    assert RequiredRuleId(f, "ruleId") == Ok(r.ruleId);
    assert RequiredStr(f, "rule") == Ok(r.rule);
    assert RequiredStr(f, "result") == Ok(r.result);
  }
}
