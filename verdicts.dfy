/**
 * The `{rule, result, reason}` dictionaries every rule evaluator returns,
 * and the fail-closed list of `Error` verdicts, one per input rule.
 */
module Verdicts {
  import opened Wrappers
  import opened JsonValues

  const ErrorResult: string := "Error"

  function Verdict(rule: string, result: string, reason: string): Json {
    JDict(map["rule" := JString(rule), "result" := JString(result), "reason" := JString(reason)])
  }

  /** `[{"rule": rule, "result": "Error", "reason": reason} for rule in rules]`. */
  function ErrorVerdicts(rules: seq<string>, reason: string): (r: Json)
    ensures r.JList? && |r.items| == |rules|
    ensures forall i :: 0 <= i < |rules| ==> r.items[i] == Verdict(rules[i], ErrorResult, reason)
  {
    JList(seq(|rules|, i requires 0 <= i < |rules| => Verdict(rules[i], ErrorResult, reason)))
  }

  /** The rule text of a verdict, when it has one. */
  function RuleOf(v: Json): Option<string> {
    match Get(v, "rule")
    case Some(JString(s)) => Some(s)
    case _ => None
  }

  function ResultOf(v: Json): Option<string> {
    match Get(v, "result")
    case Some(JString(s)) => Some(s)
    case _ => None
  }

  /** The rule texts of a list of verdicts, in order, when every verdict has one. */
  function RulesOf(vs: seq<Json>): Option<seq<string>> {
    if vs == [] then Some([])
    else match (RuleOf(vs[0]), RulesOf(vs[1..]))
      case (Some(r), Some(rest)) => Some([r] + rest)
      case _ => None
  }

  /**
   * The fallback list answers exactly the rules asked, in order, each with
   * the result "Error".
   */
  lemma {:induction false} ErrorVerdictsAnswerRules(rules: seq<string>, reason: string)
    ensures RulesOf(ErrorVerdicts(rules, reason).items) == Some(rules)
    ensures forall i :: 0 <= i < |rules| ==> ResultOf(ErrorVerdicts(rules, reason).items[i]) == Some(ErrorResult)
    decreases |rules|
  {
    var vs := ErrorVerdicts(rules, reason).items;
    if rules != [] {
      ErrorVerdictsAnswerRules(rules[1..], reason);
      assert vs[1..] == ErrorVerdicts(rules[1..], reason).items;
      assert RuleOf(vs[0]) == Some(rules[0]);
      assert [rules[0]] + rules[1..] == rules;
    }
  }

  /** A fail-closed answer: one verdict per rule, in order, each with the result "Error". */
  predicate FailClosed(v: Json, rules: seq<string>) {
    v.JList? && |v.items| == |rules| && RulesOf(v.items) == Some(rules)
    && forall i :: 0 <= i < |v.items| ==> ResultOf(v.items[i]) == Some(ErrorResult)
  }

  lemma ErrorVerdictsFailClosed(rules: seq<string>, reason: string)
    ensures FailClosed(ErrorVerdicts(rules, reason), rules)
  {
    ErrorVerdictsAnswerRules(rules, reason);
  }

  /** A dictionary with the keys `rule`, `result` and `reason`, whatever their values. */
  predicate HasVerdictKeys(item: Json) {
    item.JDict? && "rule" in item.fields && "result" in item.fields && "reason" in item.fields
  }
}
