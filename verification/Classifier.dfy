/** Classification of a raw event's kind. */
module Classifier {
  import opened Types

  datatype Rule = Rule(kind: string, category: Category, severity: Severity)

  function Rules(kinds: seq<string>, category: Category, severity: Severity): seq<Rule> {
    seq(|kinds|, i requires 0 <= i < |kinds| => Rule(kinds[i], category, severity))
  }

  /** The classification table, grouped; kinds are unique, so its order is irrelevant. */
  function Table(): seq<Rule> {
    Rules(["approval_required", "input_required", "credential_required", "command_confirmation",
           "file_edit_confirmation", "workspace_trust", "user_question", "question"], Request, Critical)
    + Rules(["error", "build_failed", "command_failed", "adapter_error"], Error, Critical)
    + Rules(["test_failed", "cancelled_by_agent", "aborted"], Error, Important)
    + Rules(["completed", "build_completed", "task_completed"], Completed, Important)
    + Rules(["tests_passed", "install_completed", "cancelled_by_user", "cancelled"], Completed, Notable)
    + Rules(["started", "waiting"], Working, Notable)
    + Rules(["progress", "installing", "idle"], Working, Routine)
  }

  datatype Matched = Exact | Suffix | Fallback

  datatype Classification = Classification(category: Category, severity: Severity, matched: Matched)

  function Find(rules: seq<Rule>, kind: string): Option<Rule> {
    if rules == [] then None
    else if rules[0].kind == kind then Some(rules[0])
    else Find(rules[1..], kind)
  }

  predicate EndsWith(s: string, suffix: string) {
    |suffix| <= |s| && s[|s| - |suffix|..] == suffix
  }

  function Classify(kind: string): Classification {
    var rule := Find(Table(), kind);
    if rule.Some? then Classification(rule.value.category, rule.value.severity, Exact)
    else if EndsWith(kind, "_failed") then Classification(Error, Critical, Suffix)
    else if EndsWith(kind, "_completed") then Classification(Completed, Important, Suffix)
    else Classification(Working, Routine, Fallback)
  }

  lemma {:induction false} FindMember(rules: seq<Rule>, kind: string)
    ensures Find(rules, kind).Some? ==> Find(rules, kind).value in rules && Find(rules, kind).value.kind == kind
    ensures Find(rules, kind).None? <==> forall r :: r in rules ==> r.kind != kind
  {
    if rules != [] {
      FindMember(rules[1..], kind);
      assert rules == [rules[0]] + rules[1..];
    }
  }

  lemma {:induction false} FindAppend(a: seq<Rule>, b: seq<Rule>, kind: string)
    ensures Find(a + b, kind) == if Find(a, kind).Some? then Find(a, kind) else Find(b, kind)
  {
    if a == [] {
      assert a + b == b;
    } else {
      assert (a + b)[1..] == a[1..] + b;
      FindAppend(a[1..], b, kind);
    }
  }

  lemma {:induction false} FindInGroup(kinds: seq<string>, category: Category, severity: Severity, kind: string)
    ensures Find(Rules(kinds, category, severity), kind) ==
              if kind in kinds then Some(Rule(kind, category, severity)) else None
  {
    if kinds != [] {
      assert Rules(kinds, category, severity)[1..] == Rules(kinds[1..], category, severity);
      FindInGroup(kinds[1..], category, severity, kind);
    }
  }

  ghost predicate Classified(kind: string, category: Category, severity: Severity, matched: Matched) {
    Classify(kind) == Classification(category, severity, matched)
  }

  /** The category and severity of every kind there is. */
  lemma KindsClassified(kind: string)
    ensures if kind in ["approval_required", "input_required", "credential_required", "command_confirmation",
                        "file_edit_confirmation", "workspace_trust", "user_question", "question"]
            then Classified(kind, Request, Critical, Exact)
            else if kind in ["error", "build_failed", "command_failed", "adapter_error"]
            then Classified(kind, Error, Critical, Exact)
            else if kind in ["test_failed", "cancelled_by_agent", "aborted"]
            then Classified(kind, Error, Important, Exact)
            else if kind in ["completed", "build_completed", "task_completed"]
            then Classified(kind, Completed, Important, Exact)
            else if kind in ["tests_passed", "install_completed", "cancelled_by_user", "cancelled"]
            then Classified(kind, Completed, Notable, Exact)
            else if kind in ["started", "waiting"] then Classified(kind, Working, Notable, Exact)
            else if kind in ["progress", "installing", "idle"] then Classified(kind, Working, Routine, Exact)
            else if EndsWith(kind, "_failed") then Classified(kind, Error, Critical, Suffix)
            else if EndsWith(kind, "_completed") then Classified(kind, Completed, Important, Suffix)
            else Classified(kind, Working, Routine, Fallback)
  {
    hide Find, Rules, EndsWith;
    var requests := ["approval_required", "input_required", "credential_required", "command_confirmation",
                     "file_edit_confirmation", "workspace_trust", "user_question", "question"];
    var failures := ["error", "build_failed", "command_failed", "adapter_error"];
    var troubles := ["test_failed", "cancelled_by_agent", "aborted"];
    var successes := ["completed", "build_completed", "task_completed"];
    var ends := ["tests_passed", "install_completed", "cancelled_by_user", "cancelled"];
    var starts := ["started", "waiting"];
    var steps := ["progress", "installing", "idle"];
    var a, b, c := Rules(requests, Request, Critical), Rules(failures, Error, Critical), Rules(troubles, Error, Important);
    var d, e := Rules(successes, Completed, Important), Rules(ends, Completed, Notable);
    var f, g := Rules(starts, Working, Notable), Rules(steps, Working, Routine);
    assert Table() == a + b + c + d + e + f + g;
    FindAppend(a + b + c + d + e + f, g, kind);
    FindAppend(a + b + c + d + e, f, kind);
    FindAppend(a + b + c + d, e, kind);
    FindAppend(a + b + c, d, kind);
    FindAppend(a + b, c, kind);
    FindAppend(a, b, kind);
    FindInGroup(requests, Request, Critical, kind);
    FindInGroup(failures, Error, Critical, kind);
    FindInGroup(troubles, Error, Important, kind);
    FindInGroup(successes, Completed, Important, kind);
    FindInGroup(ends, Completed, Notable, kind);
    FindInGroup(starts, Working, Notable, kind);
    FindInGroup(steps, Working, Routine, kind);
  }

  predicate SeverityFits(category: Category, severity: Severity) {
    match category
    case Request => severity == Critical
    case Error => severity == Critical || severity == Important
    case Completed => severity == Important || severity == Notable
    case Working => severity == Notable || severity == Routine
  }

  /** How severe each category can be: a request is always critical, errors and completions are at
      least notable, and progress is never more than notable. */
  lemma SeverityByCategory(kind: string)
    ensures var c := Classify(kind);
            SeverityFits(c.category, c.severity) && (c.category == Request ==> c.matched == Exact)
  {
    hide Classify, EndsWith;
    KindsClassified(kind);
  }
}
