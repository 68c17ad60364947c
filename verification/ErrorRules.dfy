/** Error classification (blade-ai/src/chaos_agent/errors.py): a table of classes with
    substring patterns, searched in order, the first occurring pattern deciding. */
module ErrorRules {
  import opened Text
  import opened Wrappers

  datatype ErrorClass =
    | AuthDenied | QuotaExceeded | TargetGone | InterfaceMismatch
    | UserConfig | InfraPersistent | InfraTransient | Unknown

  datatype ErrorAction = Replan | ShortRetry | EndFailed | AskUser

  datatype Classification =
    Classification(errorClass: ErrorClass, action: ErrorAction, matched: Option<string>)

  datatype Rule = Rule(errorClass: ErrorClass, patterns: seq<string>)

  function ActionOf(c: ErrorClass): ErrorAction {
    match c
    case InterfaceMismatch => Replan
    case UserConfig => Replan
    case TargetGone => Replan
    case InfraTransient => ShortRetry
    case InfraPersistent => EndFailed
    case QuotaExceeded => AskUser
    case AuthDenied => AskUser
    case Unknown => EndFailed
  }

  const OPERATOR_RULES: seq<Rule> := [
    Rule(AuthDenied, [
           "permission denied", "forbidden", "unauthorized", "x509",
           "certificate has expired", "certificate verify failed", "tls handshake failure"]),
    Rule(QuotaExceeded, [
           "exceeded quota", "resourcequota", "limit exceeded", "exceeded the resource limit"])]

  const OTHER_RULES: seq<Rule> := [
    Rule(TargetGone, [
           "resource not found", "target not found", "not found",
           "no matches for kind", "no resources found"]),
    Rule(InterfaceMismatch, [
           "unknown flag", "unknown command", "unknown shorthand flag",
           "flag provided but not defined"]),
    Rule(UserConfig, [
           "invalid parameter", "flag mismatch", "unsupported flag",
           "invalid argument", "validation error"]),
    Rule(InfraPersistent, [
           "diskpressure", "memorypressure", "networkunavailable", "pidpressure",
           "node not ready", "evicted"]),
    Rule(InfraTransient, [
           "timeout", "deadline exceeded", "connection refused", "connection reset",
           "bad file descriptor", "no such host", "i/o timeout", "tls handshake timeout",
           "server gave http response to https client", "broken pipe", "eof"])]

  const CLASSIFY_RULES: seq<Rule> := OPERATOR_RULES + OTHER_RULES

  function FirstPattern(patterns: seq<string>, msg: string): Option<string> {
    if patterns == [] then None
    else if Contains(msg, patterns[0]) then Some(patterns[0])
    else FirstPattern(patterns[1..], msg)
  }

  /** The two nested searches of classify_error, over any rule table. */
  function Search(rules: seq<Rule>, msg: string): Classification {
    if rules == [] then Classification(Unknown, ActionOf(Unknown), None)
    else
      match FirstPattern(rules[0].patterns, msg)
      case Some(p) => Classification(rules[0].errorClass, ActionOf(rules[0].errorClass), Some(p))
      case None => Search(rules[1..], msg)
  }

  function ClassifyError(message: string): Classification {
    if message == "" then Classification(Unknown, ActionOf(Unknown), None)
    else Search(CLASSIFY_RULES, Lower(message))
  }

  predicate ShouldAutoReplan(message: string) {
    ClassifyError(message).action == Replan
  }

  // ---------------------------------------------------------------------------
  // The flattened table and the position of the first occurring pattern in it.
  // ---------------------------------------------------------------------------

  function Tagged(c: ErrorClass, patterns: seq<string>): (r: seq<(ErrorClass, string)>)
    ensures |r| == |patterns|
    ensures forall i :: 0 <= i < |r| ==> r[i] == (c, patterns[i])
  {
    seq(|patterns|, i requires 0 <= i < |patterns| => (c, patterns[i]))
  }

  function Flatten(rules: seq<Rule>): seq<(ErrorClass, string)> {
    if rules == [] then []
    else Tagged(rules[0].errorClass, rules[0].patterns) + Flatten(rules[1..])
  }

  /** The least index whose pattern occurs, or the table's length. */
  ghost predicate IsFirstMatch(table: seq<(ErrorClass, string)>, msg: string, k: nat) {
    && k <= |table|
    && (forall i :: 0 <= i < k ==> !Contains(msg, table[i].1))
    && (k < |table| ==> Contains(msg, table[k].1))
  }

  /** What a classification must be when the first occurring pattern sits at index k. */
  ghost predicate DecidedBy(table: seq<(ErrorClass, string)>, k: nat, c: Classification)
    requires k <= |table|
  {
    if k == |table| then c == Classification(Unknown, EndFailed, None)
    else c == Classification(table[k].0, ActionOf(table[k].0), Some(table[k].1))
  }

  lemma {:induction false} FirstPatternIndex(patterns: seq<string>, msg: string) returns (k: nat)
    ensures k <= |patterns| && forall i :: 0 <= i < k ==> !Contains(msg, patterns[i])
    ensures FirstPattern(patterns, msg) ==
            if k < |patterns| then Some(patterns[k]) else None
    ensures k < |patterns| ==> Contains(msg, patterns[k])
  {
    if patterns == [] || Contains(msg, patterns[0]) {
      k := 0;
    } else {
      var j := FirstPatternIndex(patterns[1..], msg);
      k := j + 1;
      forall i | 0 <= i < k ensures !Contains(msg, patterns[i]) {
        if i > 0 { assert patterns[i] == patterns[1..][i - 1]; }
      }
    }
  }

  /** The nested search equals "the first pattern of the flattened table that occurs", for every table. */
  lemma {:induction false} SearchIsFirstMatch(rules: seq<Rule>, msg: string) returns (k: nat)
    ensures IsFirstMatch(Flatten(rules), msg, k)
    ensures DecidedBy(Flatten(rules), k, Search(rules, msg))
  {
    if rules == [] {
      k := 0;
    } else {
      var head := Tagged(rules[0].errorClass, rules[0].patterns);
      var table := Flatten(rules);
      var j := FirstPatternIndex(rules[0].patterns, msg);
      if j < |head| {
        k := j;
      } else {
        var r := SearchIsFirstMatch(rules[1..], msg);
        k := |head| + r;
        forall i | 0 <= i < k ensures !Contains(msg, table[i].1) {
          if i >= |head| { assert table[i] == Flatten(rules[1..])[i - |head|]; }
        }
      }
    }
  }

  /** Surrounding a message with more text never moves it to a later rule. */
  lemma SurroundingNeverMovesLater(
      pre: string, message: string, post: string, k: nat, k': nat)
    requires message != ""
    requires IsFirstMatch(Flatten(CLASSIFY_RULES), Lower(message), k)
    requires IsFirstMatch(Flatten(CLASSIFY_RULES), Lower(pre + message + post), k')
    ensures k' <= k
    ensures DecidedBy(Flatten(CLASSIFY_RULES), k, ClassifyError(message))
    ensures DecidedBy(Flatten(CLASSIFY_RULES), k', ClassifyError(pre + message + post))
  {
    var table := Flatten(CLASSIFY_RULES);
    var long := pre + message + post;
    if k < |table| {
      LowerAppend(pre + message, post);
      LowerAppend(pre, message);
      ContainsSurrounded(Lower(pre), Lower(message), Lower(post), table[k].1);
    }
    var r := SearchIsFirstMatch(CLASSIFY_RULES, Lower(message));
    FirstMatchUnique(table, Lower(message), k, r);
    var r' := SearchIsFirstMatch(CLASSIFY_RULES, Lower(long));
    FirstMatchUnique(table, Lower(long), k', r');
  }

  lemma FirstMatchUnique(table: seq<(ErrorClass, string)>, msg: string, j: nat, k: nat)
    requires IsFirstMatch(table, msg, j) && IsFirstMatch(table, msg, k)
    ensures j == k
  {
  }

  /** A rule table decides alone whatever one of its own patterns occurs in. */
  lemma {:induction false} PrefixDecides(first: seq<Rule>, rest: seq<Rule>, msg: string)
    requires Search(first, msg).matched.Some?
    ensures Search(first + rest, msg) == Search(first, msg)
  {
    if first != [] {
      assert (first + rest)[1..] == first[1..] + rest;
      if FirstPattern(first[0].patterns, msg).None? {
        PrefixDecides(first[1..], rest, msg);
      }
    }
  }

  ghost predicate NeedsOperator(message: string) {
    exists r, p | r in OPERATOR_RULES && p in r.patterns :: Contains(Lower(message), p)
  }

  lemma {:induction false} OccurringPatternIsFound(rules: seq<Rule>, r: Rule, p: string, msg: string)
    requires r in rules && p in r.patterns && Contains(msg, p)
    ensures Search(rules, msg).matched.Some?
    ensures exists q | q in rules :: Search(rules, msg).errorClass == q.errorClass
  {
    var k := FirstPatternIndex(rules[0].patterns, msg);
    if k == |rules[0].patterns| {
      OccurringPatternIsFound(rules[1..], r, p, msg);
    }
  }

  /** An error naming an authentication or quota problem is never sent to automatic replanning,
      whatever else the message says. */
  lemma OperatorErrorsNeverReplan(message: string)
    requires NeedsOperator(message)
    ensures ClassifyError(message).action == AskUser
    ensures !ShouldAutoReplan(message)
  {
    var msg := Lower(message);
    var r, p :| r in OPERATOR_RULES && p in r.patterns && Contains(msg, p);
    OccurringPatternIsFound(OPERATOR_RULES, r, p, msg);
    PrefixDecides(OPERATOR_RULES, OTHER_RULES, msg);
    if message == "" {
      NonEmptyPatterns(r, p);
    }
    var q :| q in OPERATOR_RULES && Search(OPERATOR_RULES, msg).errorClass == q.errorClass;
    SearchAction(OPERATOR_RULES, msg);
  }

  lemma NonEmptyPatterns(r: Rule, p: string)
    requires r in OPERATOR_RULES && p in r.patterns
    ensures p != "" && !Contains("", p)
  {
  }

  lemma {:induction false} SearchAction(rules: seq<Rule>, msg: string)
    ensures Search(rules, msg).action == ActionOf(Search(rules, msg).errorClass)
  {
    if rules != [] { SearchAction(rules[1..], msg); }
  }
}
