/**
 * The demo test runner: a tree of suites holding test cases, each with a
 * `waiting` -> `ran` / `skipped` status. A test body is abstracted to
 * whether calling it returns or throws.
 */
module TestSuites {
  import opened Wrappers

  /** `'pass' | 'fail' | 'skip'`. */
  datatype TestResult = PassResult | FailResult | SkipResult

  /** `'waiting' | 'ran' | 'skipped'`. */
  datatype Status = Waiting | Ran | Skipped

  /** What calling the test function does. */
  datatype TestBody = Returns | Throws

  /** `TestSuiteParams`; an absent key leaves the default. */
  datatype SuiteParams = SuiteParams(focus: Option<bool>, skip: Option<bool>, interactive: Option<bool>)

  /** `TestCaseParams`. */
  datatype CaseParams = CaseParams(
    focus: Option<bool>, skip: Option<bool>, interactive: Option<bool>, instructions: Option<string>)

  /** The entry point that was called while a test was running. */
  datatype Entry = DescribeEntry | ItEntry | FitEntry | XitEntry

  /** The error thrown by a registration call nested inside a running test. */
  datatype NestedCall = NestedCall(entry: Entry, running: string)

  /** The text of the thrown error. */
  function Message(e: NestedCall): string {
    var name := match e.entry
      case DescribeEntry => "describe"
      case ItEntry => "it"
      case FitEntry => "fit"
      case XitEntry => "xit";
    var other := if e.entry == ItEntry then "other " else "";
    "Invalid call to " + name + ", nested inside " + other + "call to it '" + e.running + "'"
  }

  /** What a run test case ends with: `'skip'` unrun, else pass or fail by its body. */
  function Verdict(skip: bool, test: TestBody): TestResult {
    if skip then SkipResult
    else if test == Returns then PassResult
    else FailResult
  }

  class TestSuite {
    const description: string
    /** The enclosing suite, fixed when the suite is created. */
    const parent: TestSuite?
    /** Length of the parent chain, and the suites on it. */
    ghost const depth: nat
    ghost const ancestors: set<TestSuite>

    var suites: seq<TestSuite>
    var tests: seq<TestCase>
    var focus: bool
    var skip: bool
    var result: Option<TestResult>
    var status: Status
    var runningTest: TestCase?
    /** The explicitly set `interactive` flag, `_interactive`. */
    var interactiveOwn: Option<bool>

    /** The parent chain is finite and `ancestors` lists it. */
    ghost predicate ChainOK()
      decreases depth
    {
      && (parent == null ==> ancestors == {} && depth == 0)
      && (parent != null ==>
            && depth == parent.depth + 1
            && ancestors == parent.ancestors + {parent}
            && parent.ChainOK())
      && (forall a :: a in ancestors ==> a.depth < depth)
    }

    constructor(description: string, parent: TestSuite?, params: SuiteParams)
      requires parent != null ==> parent.ChainOK()
      ensures ChainOK()
      ensures this.description == description && this.parent == parent
      ensures suites == [] && tests == [] && runningTest == null
      ensures focus == params.focus.GetOr(false) && skip == params.skip.GetOr(false)
      ensures interactiveOwn == params.interactive
      ensures status == Waiting && result == None
    {
      this.description := description;
      this.parent := parent;
      depth := if parent == null then 0 else parent.depth + 1;
      ancestors := if parent == null then {} else parent.ancestors + {parent};
      suites := [];
      tests := [];
      runningTest := null;
      focus := params.focus.GetOr(false);
      skip := params.skip.GetOr(false);
      interactiveOwn := params.interactive;
      status := Waiting;
      result := None;
    }

    /**
     * The `interactive` getter: the suite's own flag if set, otherwise the
     * nearest suite up the parent chain that sets one.
     */
    function Interactive(): (r: Option<bool>)
      reads this`interactiveOwn, ancestors`interactiveOwn
      requires ChainOK()
      decreases depth
      ensures interactiveOwn.Some? ==> r == interactiveOwn
      ensures r.Some? ==>
        exists x :: x in ancestors + {this} && x.interactiveOwn == r &&
          forall y :: y in ancestors + {this} && y.depth > x.depth ==> y.interactiveOwn.None?
      ensures r.None? <==> forall x :: x in ancestors + {this} ==> x.interactiveOwn.None?
    {
      if interactiveOwn.Some? then interactiveOwn
      else if parent == null then None
      else parent.Interactive()
    }

    /** The descriptions from the root suite down to this one. */
    ghost function Path(): (p: seq<string>)
      requires ChainOK()
      decreases depth
      ensures |p| == depth + 1 && p[|p| - 1] == description
    {
      (if parent == null then [] else parent.Path()) + [description]
    }

    /** The root of the chain. */
    ghost function Root(): (s: TestSuite)
      requires ChainOK()
      decreases depth
      ensures s.parent == null && (s == this || s in ancestors)
    {
      if parent == null then this else parent.Root()
    }

    /** A path starts at the root's description. */
    lemma {:induction false} PathStartsAtRoot()
      requires ChainOK()
      decreases depth
      ensures Path()[0] == Root().description
    {
      if parent != null {
        parent.PathStartsAtRoot();
      }
    }

    method AddTest(testCase: TestCase)
      modifies this`tests
      ensures tests == old(tests) + [testCase]
    {
      tests := tests + [testCase];
    }

    method AddSuite(suite: TestSuite)
      modifies this`suites
      ensures suites == old(suites) + [suite]
    {
      suites := suites + [suite];
    }

    /** `describe`: appends and returns a fresh child suite. */
    method Describe(description: string, params: SuiteParams) returns (r: Result<TestSuite, NestedCall>)
      requires ChainOK()
      modifies this`suites
      ensures runningTest != null ==>
        r == Err(NestedCall(DescribeEntry, runningTest.description)) && suites == old(suites)
      ensures runningTest == null ==>
        && r.Ok? && fresh(r.value)
        && suites == old(suites) + [r.value]
        && r.value.parent == this && r.value.description == description && r.value.ChainOK()
        && r.value.suites == [] && r.value.tests == [] && r.value.status == Waiting && r.value.result == None
        && r.value.focus == params.focus.GetOr(false) && r.value.skip == params.skip.GetOr(false)
        && r.value.interactiveOwn == params.interactive
    {
      if runningTest != null {
        return Err(NestedCall(DescribeEntry, runningTest.description));
      }
      var suite := new TestSuite(description, this, params);
      AddSuite(suite);
      r := Ok(suite);
    }

    /** The shared part of `it`, `fit` and `xit`. */
    method Register(entry: Entry, description: string, test: TestBody, params: CaseParams)
      returns (r: Outcome<NestedCall>)
      requires ChainOK() && entry != DescribeEntry
      modifies this`tests
      ensures runningTest != null ==>
        r == Fail(NestedCall(entry, runningTest.description)) && tests == old(tests)
      ensures runningTest == null ==> r == Pass && Appended(old(tests), tests, entry, description, test, params)
    {
      if runningTest != null {
        return Fail(NestedCall(entry, runningTest.description));
      }
      var testCase := new TestCase(description, test, this, params);
      if entry == FitEntry {
        testCase.focus := true;
      } else if entry == XitEntry {
        testCase.skip := true;
      }
      AddTest(testCase);
      r := Pass;
    }

    /** `it`. */
    method It(description: string, test: TestBody, params: CaseParams) returns (r: Outcome<NestedCall>)
      requires ChainOK()
      modifies this`tests
      ensures runningTest != null ==>
        r == Fail(NestedCall(ItEntry, runningTest.description)) && tests == old(tests)
      ensures runningTest == null ==> r == Pass && Appended(old(tests), tests, ItEntry, description, test, params)
    {
      r := Register(ItEntry, description, test, params);
    }

    /** `fit`: as `it`, with the new case focused. */
    method Fit(description: string, test: TestBody, params: CaseParams) returns (r: Outcome<NestedCall>)
      requires ChainOK()
      modifies this`tests
      ensures runningTest != null ==>
        r == Fail(NestedCall(FitEntry, runningTest.description)) && tests == old(tests)
      ensures runningTest == null ==> r == Pass && Appended(old(tests), tests, FitEntry, description, test, params)
    {
      r := Register(FitEntry, description, test, params);
    }

    /** `xit`: as `it`, with the new case skipped. */
    method Xit(description: string, test: TestBody, params: CaseParams) returns (r: Outcome<NestedCall>)
      requires ChainOK()
      modifies this`tests
      ensures runningTest != null ==>
        r == Fail(NestedCall(XitEntry, runningTest.description)) && tests == old(tests)
      ensures runningTest == null ==> r == Pass && Appended(old(tests), tests, XitEntry, description, test, params)
    {
      r := Register(XitEntry, description, test, params);
    }

    /**
     * A new, waiting case belonging to this suite was appended to `before`;
     * `fit` forces focus on and `xit` forces skip on.
     */
    ghost predicate Appended(before: seq<TestCase>, after: seq<TestCase>, entry: Entry,
                             description: string, test: TestBody, params: CaseParams)
      reads if |after| == 0 then {} else {after[|after| - 1]}
    {
      && |after| == |before| + 1 && after[..|before|] == before
      && var t := after[|before|];
      && t.suite == this && t.description == description && t.test == test
      && t.status == Waiting && t.result == None && t.CaseOK()
      && t.interactiveOwn == params.interactive && t.instructions == params.instructions
      && t.focus == (entry == FitEntry || params.focus.GetOr(false))
      && t.skip == (entry == XitEntry || params.skip.GetOr(false))
    }

    /** The state a finished `run` leaves: skipped, or ran (result untouched). */
    ghost predicate Finished()
      reads this`skip, this`status, this`result
    {
      if skip then status == Skipped && result == Some(SkipResult) else status == Ran
    }

    /**
     * `run`: a skipped suite records `'skip'` and runs nothing; otherwise
     * the suite runs its tests in order, then its child suites, then
     * records `'ran'`. `sh` is the suite tree below this suite, which
     * must be finite for the run to end; `ran` is the order in which
     * cases were run.
     */
    method Run(ghost sh: Shape, ghost S: set<TestSuite>, ghost C: set<TestCase>) returns (ghost ran: seq<TestCase>)
      requires sh.suite == this && Mirrors(sh, S, C)
      modifies S`status, S`result, C`status, C`result
      decreases sh, 1
      ensures ran == Planned(sh)
      ensures Finished()
      ensures skip ==> forall s :: s in S && s != this ==> s.status == old(s.status) && s.result == old(s.result)
      ensures skip ==> forall t :: t in C ==> t.status == old(t.status) && t.result == old(t.result)
      ensures forall t :: t in ran ==> t.Done()
      ensures SuitesSettled(S) && Settled(C)
      ensures Untouched(C, ran)
      ensures forall s :: s in S && !Reached(sh, s) ==> s.status == old(s.status) && s.result == old(s.result)
      ensures forall s :: s in S && Reached(sh, s) ==> s.Finished()
    {
      if skip {
        result := Some(SkipResult);
        status := Skipped;
        return [];
      }
      ran := RunTests(sh, S, C);
      var suitesRan := RunSuites(sh, S, C);
      ran := ran + suitesRan;
      status := Ran;
    }

    /** The test loop of `run`: every case runs once, in order. */
    method RunTests(ghost sh: Shape, ghost S: set<TestSuite>, ghost C: set<TestCase>) returns (ghost ran: seq<TestCase>)
      requires sh.suite == this && Mirrors(sh, S, C)
      modifies C`status, C`result
      ensures ran == tests
      ensures forall t :: t in ran ==> t.Done()
      ensures Settled(C) && Untouched(C, ran)
    {
      ran := [];
      var i := 0;
      while i < |tests|
        invariant 0 <= i <= |tests|
        invariant ran == tests[..i]
        invariant forall t :: t in ran ==> t.Done()
        invariant Settled(C) && Untouched(C, ran)
      {
        tests[i].Run();
        ran := ran + [tests[i]];
        i := i + 1;
      }
    }

    /** The child-suite loop of `run`; `ran` is the cases they ran. */
    method RunSuites(ghost sh: Shape, ghost S: set<TestSuite>, ghost C: set<TestCase>) returns (ghost ran: seq<TestCase>)
      requires sh.suite == this && Mirrors(sh, S, C) && !sh.skip
      modifies S`status, S`result, C`status, C`result
      decreases sh, 0
      ensures ran == Flatten(PlannedEach(sh))
      ensures forall t :: t in ran ==> t.Done()
      ensures SuitesSettled(S) && Settled(C) && Untouched(C, ran)
      ensures forall s :: s in S && !ReachedBelow(sh, |sh.kids|, s) ==>
        s.status == old(s.status) && s.result == old(s.result)
      ensures forall s :: s in S && ReachedBelow(sh, |sh.kids|, s) ==> s.Finished()
    {
      ghost var parts := PlannedEach(sh);
      ran := [];
      var j := 0;
      while j < |suites|
        invariant 0 <= j <= |suites|
        invariant ran == Flatten(parts[..j])
        invariant forall t :: t in ran ==> t.Done()
        invariant SuitesSettled(S) && Untouched(C, ran)
        invariant forall s :: s in S && !ReachedBelow(sh, j, s) ==>
          s.status == old(s.status) && s.result == old(s.result)
        invariant forall s :: s in S && ReachedBelow(sh, j, s) ==> s.Finished()
      {
        ghost var kid := sh.kids[j];
        label BeforeChild:
        var childRan := suites[j].Run(kid, S, C);
        FinishedStays@BeforeChild(S);
        FlattenStep(parts, j);
        ran := ran + childRan;
        ReachedBelowStep(sh, j);
        j := j + 1;
      }
      assert parts[..j] == parts;
    }
  }

  /** Since the start of the method, every case of `C` is unchanged or finished. */
  twostate predicate Settled(C: set<TestCase>)
    reads C`skip, C`status, C`result
  {
    forall t :: t in C ==> (t.status == old(t.status) && t.result == old(t.result)) || t.Done()
  }

  /** A suite finished before a run that left its skip flag alone is finished after it. */
  twostate lemma FinishedStays(S: set<TestSuite>)
    requires SuitesSettled(S) && forall s :: s in S ==> s.skip == old(s.skip)
    ensures forall s :: s in S && old(s.Finished()) ==> s.Finished()
  {
  }

  /** Since the start of the method, every case of `C` that is not in `ran` is unchanged. */
  twostate predicate Untouched(C: set<TestCase>, new ran: seq<TestCase>)
    reads C`status, C`result
  {
    forall t :: t in C && t !in ran ==> t.status == old(t.status) && t.result == old(t.result)
  }

  /**
   * Since the start of the method, every suite of `S` is unchanged or
   * finished, and no suite that is not skipped had its result set.
   */
  twostate predicate SuitesSettled(S: set<TestSuite>)
    reads S`skip, S`status, S`result
  {
    forall s :: s in S ==>
      && (!s.skip ==> s.result == old(s.result))
      && ((s.status == old(s.status) && s.result == old(s.result)) || s.Finished())
  }

  /**
   * A snapshot of a suite tree: each suite with its skip flag, its test
   * cases and the shapes of its child suites.
   */
  datatype Shape = Shape(suite: TestSuite, skip: bool, tests: seq<TestCase>, kids: seq<Shape>)

  /**
   * The suites on the heap are the tree `sh` describes; its suites are
   * in `S` and its cases in `C`.
   */
  ghost predicate Mirrors(sh: Shape, S: set<TestSuite>, C: set<TestCase>)
    reads S`skip, S`tests, S`suites
    decreases sh
  {
    && sh.suite in S
    && sh.suite.skip == sh.skip && sh.suite.tests == sh.tests
    && (forall t :: t in sh.tests ==> t in C)
    && |sh.suite.suites| == |sh.kids|
    && forall k :: 0 <= k < |sh.kids| ==> sh.suite.suites[k] == sh.kids[k].suite && Mirrors(sh.kids[k], S, C)
  }

  /** The suites whose `run` a run of the tree calls: the root, and below it only if it is not skipped. */
  ghost predicate Reached(sh: Shape, s: TestSuite)
    decreases sh, 1
  {
    s == sh.suite || (!sh.skip && ReachedBelow(sh, |sh.kids|, s))
  }

  /** `s` is reached from one of the first `j` child trees. */
  ghost predicate ReachedBelow(sh: Shape, j: nat, s: TestSuite)
    requires j <= |sh.kids|
    decreases sh, 0
  {
    exists k :: 0 <= k < j && Reached(sh.kids[k], s)
  }

  /** The first `j + 1` child trees reach what the first `j` reach, and what child `j` reaches. */
  lemma ReachedBelowStep(sh: Shape, j: nat)
    requires j < |sh.kids|
    ensures forall s :: ReachedBelow(sh, j + 1, s) <==> ReachedBelow(sh, j, s) || Reached(sh.kids[j], s)
  {
    forall s | ReachedBelow(sh, j + 1, s) ensures ReachedBelow(sh, j, s) || Reached(sh.kids[j], s) {
      var k :| 0 <= k < j + 1 && Reached(sh.kids[k], s);
    }
  }

  /** The cases a run of the tree runs, in order. */
  ghost function Planned(sh: Shape): seq<TestCase>
    decreases sh, 1
  {
    if sh.skip then [] else sh.tests + Flatten(PlannedEach(sh))
  }

  /** What each child tree runs, child by child. */
  ghost function PlannedEach(sh: Shape): (parts: seq<seq<TestCase>>)
    decreases sh, 0
    ensures |parts| == |sh.kids|
    ensures forall k :: 0 <= k < |sh.kids| ==> parts[k] == Planned(sh.kids[k])
  {
    seq(|sh.kids|, k requires 0 <= k < |sh.kids| => Planned(sh.kids[k]))
  }

  /** The parts one after the other. */
  function Flatten<T>(parts: seq<seq<T>>): (r: seq<T>)
  {
    if |parts| == 0 then [] else Flatten(parts[..|parts| - 1]) + parts[|parts| - 1]
  }

  /** Flattening one more part appends it. */
  lemma FlattenStep<T>(parts: seq<seq<T>>, j: nat)
    requires j < |parts|
    ensures Flatten(parts[..j + 1]) == Flatten(parts[..j]) + parts[j]
  {
    assert parts[..j + 1][..j] == parts[..j];
  }

  /** Whatever is in the flattened sequence comes from one of the parts. */
  lemma {:induction false} FlattenMember<T>(parts: seq<seq<T>>, x: T) returns (k: nat)
    requires x in Flatten(parts)
    ensures k < |parts| && x in parts[k]
  {
    var n := |parts| - 1;
    if x in parts[n] {
      k := n;
    } else {
      k := FlattenMember(parts[..n], x);
    }
  }

  /** A run only runs cases of `C`. */
  lemma {:induction false} PlannedWithin(sh: Shape, S: set<TestSuite>, C: set<TestCase>)
    requires Mirrors(sh, S, C)
    decreases sh
    ensures forall t :: t in Planned(sh) ==> t in C
  {
    if !sh.skip {
      var parts := PlannedEach(sh);
      forall t | t in Flatten(parts)
        ensures t in C
      {
        var k := FlattenMember(parts, t);
        PlannedWithin(sh.kids[k], S, C);
      }
    }
  }

  class TestCase {
    const description: string
    const test: TestBody
    /** The owning suite, fixed when the case is created. */
    const suite: TestSuite?
    /** The suites whose flags `interactive` may consult. */
    ghost const owners: set<TestSuite>

    var focus: bool
    var skip: bool
    var result: Option<TestResult>
    var status: Status
    var instructions: Option<string>
    var interactiveOwn: Option<bool>

    ghost predicate CaseOK() {
      && (suite == null ==> owners == {})
      && (suite != null ==> suite.ChainOK() && owners == suite.ancestors + {suite})
    }

    constructor(description: string, test: TestBody, suite: TestSuite?, params: CaseParams)
      requires suite != null ==> suite.ChainOK()
      ensures CaseOK()
      ensures this.description == description && this.test == test && this.suite == suite
      ensures focus == params.focus.GetOr(false) && skip == params.skip.GetOr(false)
      ensures interactiveOwn == params.interactive && instructions == params.instructions
      ensures status == Waiting && result == None
    {
      this.description := description;
      this.test := test;
      this.suite := suite;
      owners := if suite == null then {} else suite.ancestors + {suite};
      focus := params.focus.GetOr(false);
      skip := params.skip.GetOr(false);
      interactiveOwn := params.interactive;
      instructions := params.instructions;
      status := Waiting;
      result := None;
    }

    /**
     * The `interactive` getter: the case's own flag if set, otherwise the
     * nearest suite up from its owner that sets one.
     */
    function Interactive(): (r: Option<bool>)
      reads this`interactiveOwn, owners`interactiveOwn
      requires CaseOK()
      ensures interactiveOwn.Some? ==> r == interactiveOwn
      ensures interactiveOwn.None? && r.Some? ==>
        exists x :: x in owners && x.interactiveOwn == r &&
          forall y :: y in owners && y.depth > x.depth ==> y.interactiveOwn.None?
      ensures r.None? <==> interactiveOwn.None? && forall x :: x in owners ==> x.interactiveOwn.None?
    {
      if interactiveOwn.Some? then interactiveOwn
      else if suite == null then None
      else suite.Interactive()
    }

    /** The state a finished `run` leaves. */
    ghost predicate Done()
      reads this`skip, this`status, this`result
    {
      && result == Some(Verdict(skip, test))
      && status == (if skip then Skipped else Ran)
    }

    /**
     * `run`: a skipped case records `'skip'` without calling its test;
     * otherwise `'pass'` or `'fail'` by whether the test throws, and `'ran'`.
     */
    method Run()
      modifies this`result, this`status
      ensures Done()
      ensures skip ==> result == Some(SkipResult) && status == Skipped
      ensures !skip && test == Returns ==> result == Some(PassResult) && status == Ran
      ensures !skip && test == Throws ==> result == Some(FailResult) && status == Ran
    {
      if skip {
        result := Some(SkipResult);
        status := Skipped;
        return;
      }
      result := if test == Returns then Some(PassResult) else Some(FailResult);
      status := Ran;
    }

    /**
     * `getTestNameParts`: the suite descriptions from the root down to the
     * owning suite, without the root's, then the case's own. A case with no
     * suite throws (`None`).
     */
    method GetTestNameParts() returns (r: Option<seq<string>>)
      requires CaseOK()
      ensures suite == null ==> r == None
      ensures suite != null ==> r == Some(suite.Path()[1..] + [description])
    {
      if suite == null {
        return None;
      }
      var s: TestSuite := suite;
      var descriptions := [s.description];
      while s.parent != null
        invariant s.ChainOK()
        invariant suite.Path() == (if s.parent == null then [] else s.parent.Path()) + descriptions
        decreases s.depth
      {
        s := s.parent;
        ghost var above := if s.parent == null then [] else s.parent.Path();
        assert s.Path() == above + [s.description];
        AppendAssoc(above, [s.description], descriptions);
        descriptions := [s.description] + descriptions;
      }
      assert descriptions == suite.Path();
      descriptions := descriptions + [description];
      descriptions := descriptions[1..];
      assert descriptions == suite.Path()[1..] + [description];
      r := Some(descriptions);
    }
  }

  /** Every part but the last names a suite below the root, in chain order. */
  lemma {:induction false} NamePartsLength(s: TestSuite)
    requires s.ChainOK()
    decreases s.depth
    ensures |s.Path()[1..]| == s.depth
    ensures s.parent != null ==> s.Path()[1..] == s.parent.Path()[1..] + [s.description]
  {
    if s.parent != null {
      NamePartsLength(s.parent);
    }
  }
}
