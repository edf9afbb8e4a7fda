/**
 * The CoreDNS plugin's exact-name rewrite rule (coredns-plugin/rewrite_rule.go):
 * a request whose name is exactly `from` has its first question renamed to
 * `to`; any other request is left alone.
 */
module RewriteRule {

  /** A compiled regular expression, kept as the text it was compiled from. */
  datatype Pattern = Pattern(expr: string)

  /** How the answer is rewritten back: names matching `pattern` become `replacement`. */
  datatype ResponseRule = ResponseRule(active: bool, ruleType: string, pattern: Pattern, replacement: string)

  /** The outcome a rewrite rule reports to the rewrite plugin. */
  datatype RewriteResult = RewriteIgnored | RewriteDone

  datatype ExactNameRule = ExactNameRule(nextAction: string, from: string, to: string, responseRule: ResponseRule)
  {
    /** Mode: what the rewrite plugin does after this rule, the rule's next action. */
    function Mode(): (r: string) {
      nextAction
    }

    /** GetResponseRule: the embedded response rule, as it is. */
    function GetResponseRule(): (r: ResponseRule) {
      responseRule
    }
  }

  /** One entry of a DNS message's question section. */
  datatype Question = Question(name: string, qtype: nat, qclass: nat)

  /** The request message the rule rewrites in place. */
  class Msg {
    var question: seq<Question>

    constructor (question: seq<Question>)
      ensures this.question == question
    {
      this.question := question;
    }
  }

  /**
   * The question section after the rule has run on a request whose name is
   * `name`, with the result reported.
   */
  function Rewritten(rule: ExactNameRule, questions: seq<Question>, name: string): (seq<Question>, RewriteResult)
    requires |questions| > 0
  {
    if rule.from == name then (questions[0 := questions[0].(name := rule.to)], RewriteDone)
    else (questions, RewriteIgnored)
  }

  /**
   * Rewrite: the request's name is the first question's name as the request
   * library reads it (`requestName`, lower case with a closing dot); on an
   * exact match the first question is renamed in place.
   */
  method Rewrite(rule: ExactNameRule, msg: Msg, requestName: string -> string) returns (r: RewriteResult)
    requires |msg.question| > 0
    modifies msg
    ensures (msg.question, r) == Rewritten(rule, old(msg.question), requestName(old(msg.question)[0].name))
  {
    if rule.from == requestName(msg.question[0].name) {
      msg.question := msg.question[0 := msg.question[0].(name := rule.to)];
      return RewriteDone;
    }
    return RewriteIgnored;
  }

  /**
   * The rule fires exactly on a name equal to `from`; then only the first
   * question's name changes, to `to`, and otherwise nothing changes.
   */
  lemma RewriteOnExactMatch(rule: ExactNameRule, questions: seq<Question>, name: string)
    requires |questions| > 0
    ensures var (q, r) := Rewritten(rule, questions, name);
      && (r == RewriteDone <==> rule.from == name)
      && |q| == |questions|
      && (forall i | 1 <= i < |q| :: q[i] == questions[i])
      && (r == RewriteDone ==> q[0] == Question(rule.to, questions[0].qtype, questions[0].qclass))
      && (r == RewriteIgnored ==> q == questions)
  {
  }

  /**
   * Running a rule twice: once it has renamed the question to `to`, a second
   * run changes nothing more unless `to` is itself read as `from`.
   */
  lemma RewriteTwice(rule: ExactNameRule, questions: seq<Question>, requestName: string -> string)
    requires |questions| > 0
    requires requestName(rule.to) != rule.from
    ensures var (q1, r1) := Rewritten(rule, questions, requestName(questions[0].name));
      var (q2, r2) := Rewritten(rule, q1, requestName(q1[0].name));
      r1 == RewriteDone ==> q2 == q1 && r2 == RewriteIgnored
  {
  }
}
