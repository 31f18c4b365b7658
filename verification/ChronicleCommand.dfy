/** How the acknowledgement of an append is classified (Source/Chronicle/ChronicleCommand.ts:19-68): fail closed. */
module ChronicleCommand {
  import opened Options

  /** A violation, as its deduplication key sees it. */
  datatype Violation =
    | Constraint(id: string, message: string, details: map<string, string>)
    | Concurrency(source: string, expected: int, actual: int)

  /** `isSuccess` comes from the wire and need not be a boolean. */
  datatype Flag = Yes | No | NotBoolean

  datatype AppendResult = AppendResult(isSuccess: Flag, constraints: seq<Violation>, concurrency: Option<Violation>,
                                       errors: seq<string>)

  datatype Issue = Issue(message: string, members: seq<string>, reason: string, detail: Option<string>, state: Option<(string, int, int)>)

  datatype Failure = UnknownResult | Contradictory | AppendError | Partial | Incomplete

  datatype Verdict = Accepted | Rejected(issues: seq<Issue>) | Throws(failure: Failure)

  // ---- what a single acknowledgement says -------------------------------------------------------

  /** The violations one result reports, constraints first. */
  function Reported(r: AppendResult): seq<Violation> {
    r.constraints + if r.concurrency.Some? then [r.concurrency.value] else []
  }

  /** The event was stored, and nothing contradicts it. */
  predicate Stored(r: AppendResult) {
    r.isSuccess.Yes? && Reported(r) == [] && r.errors == []
  }

  /** The event was refused for a stated reason, and nothing else went wrong. */
  predicate Refused(r: AppendResult) {
    r.isSuccess.No? && Reported(r) != [] && r.errors == []
  }

  // ---- rejection issues -------------------------------------------------------------------------

  predicate IsUpper(c: char) {
    'A' <= c <= 'Z'
  }

  function ToLower(c: char): char {
    if IsUpper(c) then c + 32 as char else c
  }

  function MemberName(name: string): string
    requires name != ""
  {
    if 2 <= |name| && IsUpper(name[0]) && IsUpper(name[1]) then name else [ToLower(name[0])] + name[1..]
  }

  function IssueOf(v: Violation): Issue {
    match v
    case Constraint(id, message, details) =>
      Issue(if message != "" then message else if id != "" then id else "Chronicle constraint violated",
            if "PropertyName" in details && details["PropertyName"] != "" then [MemberName(details["PropertyName"])] else [],
            "constraintViolation", Some(id), None)
    case Concurrency(source, expected, actual) =>
      Issue("Concurrent modification prevented the append", [], "concurrencyViolation", None, Some((source, expected, actual)))
  }

  /** A client's name for a property: the same letters, the first in lower case unless the name begins with two capitals. */
  predicate Names(member: string, property: string) {
    && |member| == |property| && 0 < |property| && member[1..] == property[1..]
    && if 2 <= |property| && 'A' <= property[0] <= 'Z' && 'A' <= property[1] <= 'Z' then member[0] == property[0]
       else if 'A' <= property[0] <= 'Z' then 'a' <= member[0] <= 'z' && member[0] as int - property[0] as int == 32
       else member[0] == property[0]
  }

  /**
   * What a client learns of a violation: of a constraint its message, or its name for want of one, and the property it is
   * about; of a concurrent change the event source, the sequence number its writer expected, and the one that is there.
   */
  predicate Describes(issue: Issue, v: Violation) {
    match v
    case Constraint(id, message, details) =>
      && issue.reason == "constraintViolation" && issue.detail == Some(id) && issue.state.None?
      && (message != "" ==> issue.message == message)
      && (message == "" && id != "" ==> issue.message == id)
      && (message == "" && id == "" ==> issue.message == "Chronicle constraint violated")
      && (if "PropertyName" in details && details["PropertyName"] != ""
          then |issue.members| == 1 && Names(issue.members[0], details["PropertyName"]) else issue.members == [])
    case Concurrency(source, expected, actual) =>
      && issue.reason == "concurrencyViolation" && issue.detail.None? && issue.members == []
      && issue.message == "Concurrent modification prevented the append"
      && issue.state.Some? && issue.state.value.0 == source && issue.state.value.1 == expected && issue.state.value.2 == actual
  }

  /** Every issue describes its violation, in the order of the violations. */
  predicate DescribesAll(issues: seq<Issue>, violations: seq<Violation>) {
    |issues| == |violations| && forall i :: 0 <= i < |issues| ==> Describes(issues[i], violations[i])
  }

  lemma IssuesDescribe(violations: seq<Violation>)
    ensures DescribesAll(Issues(violations), violations)
  {
    forall i | 0 <= i < |violations| ensures Describes(Issues(violations)[i], violations[i]) {
      IssueDescribes(violations[i]);
      assert Issues(violations)[i] == IssueOf(violations[i]);
    }
    hide Describes, IssueOf;
  }

  lemma IssueDescribes(v: Violation)
    ensures Describes(IssueOf(v), v)
  {
  }

  function Violations(results: seq<AppendResult>): seq<Violation> {
    if results == [] then [] else Violations(results[..|results| - 1]) + Reported(results[|results| - 1])
  }

  /** The first occurrence of each violation, in order. */
  function Distinct(s: seq<Violation>): seq<Violation> {
    if s == [] then [] else
      var before, v := Distinct(s[..|s| - 1]), s[|s| - 1];
      if v in s[..|s| - 1] then before else before + [v]
  }

  function Issues(s: seq<Violation>): seq<Issue> {
    seq(|s|, i requires 0 <= i < |s| => IssueOf(s[i]))
  }

  /** The position at which a violation is first reported. */
  function FirstAt(s: seq<Violation>, v: Violation): (i: nat)
    requires v in s
    ensures i < |s| && s[i] == v && forall k :: 0 <= k < i ==> s[k] != v
  {
    if s[0] == v then 0 else
      assert forall k :: 1 <= k < |s| ==> s[k] == s[1..][k - 1];
      1 + FirstAt(s[1..], v)
  }

  lemma {:induction false} FirstAtPrefix(s: seq<Violation>, v: Violation, n: nat)
    requires n <= |s| && v in s[..n]
    ensures FirstAt(s, v) == FirstAt(s[..n], v)
  {
    var i, j := FirstAt(s, v), FirstAt(s[..n], v);
    assert forall k :: 0 <= k < n ==> s[..n][k] == s[k];
    assert i <= j && j <= i;
  }

  /** `Distinct` reports every violation, none of them twice, and in the order they first occurred. */
  lemma {:induction false} DistinctIsFirstOccurrences(s: seq<Violation>)
    ensures forall v :: v in Distinct(s) <==> v in s
    ensures forall i, j :: 0 <= i < j < |Distinct(s)| ==> FirstAt(s, Distinct(s)[i]) < FirstAt(s, Distinct(s)[j])
  {
    if s != [] {
      var n := |s| - 1;
      var before, d := s[..n], Distinct(s);
      DistinctIsFirstOccurrences(before);
      assert s == before + [s[n]];
      forall v | v in before ensures FirstAt(s, v) == FirstAt(before, v) { FirstAtPrefix(s, v, n); }
      forall i, j | 0 <= i < j < |d| ensures FirstAt(s, d[i]) < FirstAt(s, d[j]) {
        assert d[i] == Distinct(before)[i] && d[i] in before;
        if j < |Distinct(before)| {
          assert d[j] == Distinct(before)[j];
        } else {
          assert d[j] == s[n] && s[n] !in before;
          assert forall k :: 0 <= k < n ==> s[k] == before[k];
        }
      }
    }
  }

  lemma {:induction false} DistinctExtends(s: seq<Violation>, v: Violation)
    ensures Distinct(s + [v]) == if v in s then Distinct(s) else Distinct(s) + [v]
  {
    assert (s + [v])[..|s|] == s;
  }

  /** Report a violation unless it was seen before. */
  method Note(violation: Violation, seen: set<Violation>, issues: seq<Issue>, ghost walked: seq<Violation>)
    returns (seen': set<Violation>, issues': seq<Issue>)
    requires issues == Issues(Distinct(walked)) && forall v :: v in seen <==> v in walked
    ensures issues' == Issues(Distinct(walked + [violation])) && forall v :: v in seen' <==> v in walked + [violation]
  {
    DistinctExtends(walked, violation);
    if violation in seen { return seen, issues; }
    seen', issues' := seen + {violation}, issues + [IssueOf(violation)];
    hide Distinct, IssueOf;
  }

  /** `appendRejection`: walk all violations, remember which were seen, and report each once. */
  method AppendRejection(results: seq<AppendResult>) returns (issues: seq<Issue>)
    ensures issues == Issues(Distinct(Violations(results))) && DescribesAll(issues, Distinct(Violations(results)))
  {
    hide Issues, Distinct, IssueOf, DescribesAll;
    var seen: set<Violation> := {};
    issues := [];
    assert issues == Issues(Distinct([])) by { NothingReported(); }
    for n := 0 to |results|
      invariant issues == Issues(Distinct(Violations(results[..n])))
      invariant forall v :: v in seen <==> v in Violations(results[..n])
    {
      var result := results[n];
      ghost var before := Violations(results[..n]);
      assert before + result.constraints[..0] == before;
      for k := 0 to |result.constraints|
        invariant issues == Issues(Distinct(before + result.constraints[..k]))
        invariant forall v :: v in seen <==> v in before + result.constraints[..k]
      {
        seen, issues := Note(result.constraints[k], seen, issues, before + result.constraints[..k]);
        assert before + result.constraints[..k + 1] == before + result.constraints[..k] + [result.constraints[k]];
      }
      assert before + result.constraints[..|result.constraints|] == before + result.constraints;
      if result.concurrency.Some? {
        seen, issues := Note(result.concurrency.value, seen, issues, before + result.constraints);
        assert before + Reported(result) == before + result.constraints + [result.concurrency.value];
      } else {
        assert Reported(result) == result.constraints;
      }
      ViolationsExtend(results, n);
    }
    assert results[..|results|] == results;
    IssuesDescribe(Distinct(Violations(results)));
  }

  lemma NothingReported()
    ensures Issues(Distinct([])) == []
  {
  }

  lemma ViolationsExtend(results: seq<AppendResult>, n: nat)
    requires n < |results|
    ensures Violations(results[..n + 1]) == Violations(results[..n]) + Reported(results[n])
  {
    assert results[..n + 1][..n] == results[..n];
  }

  // ---- the trichotomy ---------------------------------------------------------------------------

  function CountStored(results: seq<AppendResult>): (n: nat)
    ensures n <= |results|
    ensures n == |results| <==> forall i :: 0 <= i < |results| ==> Stored(results[i])
    ensures n == 0 <==> forall i :: 0 <= i < |results| ==> !Stored(results[i])
  {
    if results == [] then 0 else
      assert forall i :: 1 <= i < |results| ==> results[i] == results[1..][i - 1];
      (if Stored(results[0]) then 1 else 0) + CountStored(results[1..])
  }

  /** Every event was acknowledged as stored. */
  predicate AllStored(results: seq<AppendResult>, expected: nat) {
    |results| == expected && forall i :: 0 <= i < |results| ==> Stored(results[i])
  }

  /** Every event was acknowledged as refused: nothing was stored. */
  predicate AllRefused(results: seq<AppendResult>, expected: nat) {
    |results| == expected && results != [] && forall i :: 0 <= i < |results| ==> Refused(results[i])
  }

  lemma {:induction false} ViolationsOf(results: seq<AppendResult>)
    ensures Violations(results) == [] <==> forall i :: 0 <= i < |results| ==> Reported(results[i]) == []
  {
    if results != [] {
      var n := |results| - 1;
      ViolationsOf(results[..n]);
      assert forall i :: 0 <= i < n ==> results[..n][i] == results[i];
    }
  }

  /** What is reported is every constraint and every concurrent change that some result names, and nothing else. */
  lemma {:induction false} EveryViolationIsReported(results: seq<AppendResult>, v: Violation)
    ensures v in Distinct(Violations(results)) <==>
              exists i :: 0 <= i < |results| && (v in results[i].constraints || results[i].concurrency == Some(v))
  {
    hide Distinct, Violations, Reported;
    DistinctIsFirstOccurrences(Violations(results));
    EveryViolationIsFound(results, v);
  }

  lemma {:induction false} EveryViolationIsFound(results: seq<AppendResult>, v: Violation)
    ensures v in Violations(results) <==>
              exists i :: 0 <= i < |results| && (v in results[i].constraints || results[i].concurrency == Some(v))
  {
    if results != [] {
      var n := |results| - 1;
      EveryViolationIsFound(results[..n], v);
      assert v in Reported(results[n]) <==> v in results[n].constraints || results[n].concurrency == Some(v);
      hide Reported;
      assert Violations(results) == Violations(results[..n]) + Reported(results[n]);
      assert forall i :: 0 <= i < n ==> results[..n][i] == results[i];
    }
  }

  lemma {:induction false} DistinctEmpty(s: seq<Violation>)
    ensures Distinct(s) == [] <==> s == []
  {
    if s != [] {
      DistinctIsFirstOccurrences(s);
      assert s[0] in Distinct(s);
    }
  }

  /**
   * `checkResults` says that the append succeeded exactly when every event is acknowledged as stored; it says that the
   * append was rejected exactly when every event is acknowledged as refused; it throws on everything in between.
   */
  method CheckResults(results: seq<AppendResult>, expected: nat) returns (verdict: Verdict)
    ensures verdict.Accepted? <==> AllStored(results, expected)
    ensures verdict.Rejected? <==> AllRefused(results, expected)
    ensures verdict.Rejected? ==> verdict.issues == Issues(Distinct(Violations(results))) && verdict.issues != []
    ensures verdict.Rejected? ==> DescribesAll(verdict.issues, Distinct(Violations(results)))
  {
    ViolationsOf(results);
    DistinctEmpty(Violations(results));
    if exists r :: r in results && r.isSuccess.NotBoolean? { return Throws(UnknownResult); }
    if exists r :: r in results && r.isSuccess.Yes? && (r.constraints != [] || r.concurrency.Some? || r.errors != []) {
      return Throws(Contradictory);
    }
    var accepted := CountStored(results);
    if exists r :: r in results && r.errors != [] { return Throws(AppendError); }
    if 0 < accepted && (accepted != expected || |results| != expected) { return Throws(Partial); }
    if |results| != expected { return Throws(Incomplete); }
    if exists r :: r in results && r.isSuccess.No? && r.constraints == [] && r.concurrency.None? {
      return Throws(UnknownResult);
    }
    var issues := AppendRejection(results);
    if issues != [] && accepted == 0 { return Rejected(issues); }
    if accepted != expected { return Throws(UnknownResult); }
    return Accepted;
  }
}
