/** Risk of a change list, and when it may be applied without a human. */
module RiskAssessment {
  import opened Wrappers
  import opened Scopes
  import opened PathClasses
  import opened Sorting
  import opened Texts

  const GLOBAL_AUTOMATIC_RISK_CEILING := 20

  datatype HardDenial = SecretDetected | OutsideScope | Symlink | Submodule | GitMetadata | MissingProof
    | UndeclaredOperation

  datatype Operation = AddFile | Modify | Delete | Rename

  datatype RiskChange = RiskChange(
    path: string, operation: Operation, churn: int, binary: bool, executableChanged: bool, secretDetected: bool,
    outsideScope: bool, symlink: bool, submodule: bool, gitMetadata: bool, proofPresent: bool, declared: bool)

  datatype RiskPolicy = RiskPolicy(automaticThreshold: int, extraWeights: map<string, int>)

  datatype Factor = Factor(path: string, reason: string, score: int)

  datatype Assessment = Assessment(deterministicScore: int, modelAddition: int, hardDenials: set<HardDenial>,
        factors: seq<Factor>, automaticEligible: bool)

  datatype RiskError = InvalidPolicy | InvalidChanges | InvalidModelAddition | InvalidChange

  // Categories.

  datatype Category = CiSecurityRelease | Configuration | Testing | Documentation | Source

  function NameOf(c: Category): string {
    match c
    case CiSecurityRelease => "ci_security_release"
    case Configuration => "configuration"
    case Testing => "tests"
    case Documentation => "documentation"
    case Source => "source"
  }

  function BaseScore(c: Category): int {
    match c
    case CiSecurityRelease => 50
    case Configuration => 25
    case Testing => 10
    case Documentation => 1
    case Source => 15
  }

  predicate ConfigurationFile(name: string) {
    || name in {"package-lock.json", "pnpm-lock.yaml", "yarn.lock", "cargo.lock", "package.json", "dockerfile",
      "compose.yml", "compose.yaml"}
    || ("tsconfig" <= name && EndsWith(name, ".json") && |name| >= 13)
  }

  predicate TestSuffix(path: string) {
    exists kind, modifier, language, x ::
      && kind in {"test", "spec"} && modifier in {"", "c", "m"} && language in {"j", "t"} && x in {"", "x"}
      && EndsWith(path, "." + kind + "." + modifier + language + "s" + x)
  }

  function CategoryFor(path: string): Category {
    var normalized := Lower(path);
    var parts := Split(normalized, '/');
    if ".github/" <= normalized || ".gitlab/" <= normalized || "security" in parts ||
      "release" in parts then CiSecurityRelease
    else if ConfigurationFile(LastPart(normalized)) then Configuration
    else if "test" in parts || "tests" in parts || "spec" in parts || "specs" in parts ||
      TestSuffix(normalized) then Testing
    else if EndsWith(normalized, ".md") || EndsWith(normalized, ".mdx") || EndsWith(normalized, ".txt") ||
      EndsWith(normalized, ".adoc")
      || EndsWith(normalized, ".rst") || "docs/" <= normalized then Documentation
    else Source
  }

  /** The file names of configurations, by the last part of the path. */
  lemma ConfigurationIsNamed(path: string)
    ensures ConfigurationFile(LastPart(path)) <==> Configures(path)
  {
    hide Named;
    NamedIsLastPart(path, "package-lock.json");
    NamedIsLastPart(path, "pnpm-lock.yaml");
    NamedIsLastPart(path, "yarn.lock");
    NamedIsLastPart(path, "cargo.lock");
    NamedIsLastPart(path, "package.json");
    NamedIsLastPart(path, "dockerfile");
    NamedIsLastPart(path, "compose.yml");
    NamedIsLastPart(path, "compose.yaml");
    CompilerConfigurationByName(path);
  }

  lemma CompilerConfigurationByName(path: string)
    ensures var name := LastPart(path);
      "tsconfig" <= name && EndsWith(name, ".json") && |name| >= 13 <==> CompilerConfiguration(path)
  {
    hide LastPart, EndsWith;
    LastPartEnds(path);
    var name := LastPart(path);
    if "tsconfig" <= name && EndsWith(name, ".json") && |name| >= 13 {
      EndsBehind(name);
      assert path[|path| - |name| + 8..] == name[8..];
      assert Begins(path, |path| - |name|);
    }
    if i :| Begins(path, i) && '/' !in path[i..] && "tsconfig" <= path[i..] && EndsWith(path[i + 8..], ".json") {
      LastPartUnique(path, i);
      EndsBehind(path[i..]);
      assert path[i + 8..] == name[8..];
    }
  }

  lemma EndsBehind(name: string)
    requires |name| >= 8
    ensures EndsWith(name[8..], ".json") <==> EndsWith(name, ".json") && |name| >= 13
  {
    if |name| >= 13 {
      assert name[8..][|name| - 13..] == name[|name| - 5..];
    }
  }

  lemma TestSuffixIsEnding(path: string)
    ensures TestSuffix(path) <==> TestEnding(path)
  {
    if kind, modifier, language, x :|
      && kind in {"test", "spec"} && modifier in {"", "c", "m"} && language in {"j", "t"} && x in {"", "x"}
      && EndsWith(path, "." + kind + "." + modifier + language + "s" + x) {
      SuffixIsEnding(path, kind, modifier, language, x);
    }
    if ending :|
      && ending in {"js", "jsx", "ts", "tsx", "cjs", "cjsx", "cts", "ctsx", "mjs", "mjsx", "mts", "mtsx"}
      && (EndsWith(path, ".test." + ending) || EndsWith(path, ".spec." + ending)) {
      EndingIsSuffix(path, ending);
    }
  }

  lemma SuffixIsEnding(path: string, kind: string, modifier: string, language: string, x: string)
    requires kind in {"test", "spec"} && modifier in {"", "c", "m"} && language in {"j", "t"} && x in {"", "x"}
    requires EndsWith(path, "." + kind + "." + modifier + language + "s" + x)
    ensures TestEnding(path)
  {
    hide EndsWith;
    EndingNamed(modifier, language, x);
    SuffixText(kind, modifier, language, x);
  }

  lemma EndingIsSuffix(path: string, ending: string)
    requires ending in {"js", "jsx", "ts", "tsx", "cjs", "cjsx", "cts", "ctsx", "mjs", "mjsx", "mts", "mtsx"}
    requires EndsWith(path, ".test." + ending) || EndsWith(path, ".spec." + ending)
    ensures TestSuffix(path)
  {
    hide EndsWith;
    var kind := if EndsWith(path, ".test." + ending) then "test" else "spec";
    var modifier, language, x := EndingParts(ending);
    SuffixText(kind, modifier, language, x);
    assert EndsWith(path, "." + kind + "." + modifier + language + "s" + x);
  }

  lemma SuffixText(kind: string, modifier: string, language: string, x: string)
    requires kind in {"test", "spec"}
    ensures "." + kind + "." + modifier + language + "s" + x ==
      (if kind == "test" then ".test." else ".spec.") + (modifier + language + "s" + x)
  {
    assert "." + kind + "." == if kind == "test" then ".test." else ".spec.";
  }

  lemma EndingNamed(modifier: string, language: string, x: string)
    requires modifier in {"", "c", "m"} && language in {"j", "t"} && x in {"", "x"}
    ensures modifier + language + "s" + x in
      {"js", "jsx", "ts", "tsx", "cjs", "cjsx", "cts", "ctsx", "mjs", "mjsx", "mts", "mtsx"}
  {
    var ending := modifier + language + "s" + x;
    assert ending == if modifier == "" then (if language == "j" then (if x == "" then "js" else "jsx")
        else if x == "" then "ts" else "tsx")
      else if modifier == "c" then (if language == "j" then (if x == "" then "cjs" else "cjsx")
        else if x == "" then "cts" else "ctsx")
      else (if language == "j" then (if x == "" then "mjs" else "mjsx") else if x == "" then "mts" else "mtsx");
  }

  lemma EndingParts(ending: string) returns (modifier: string, language: string, x: string)
    requires ending in {"js", "jsx", "ts", "tsx", "cjs", "cjsx", "cts", "ctsx", "mjs", "mjsx", "mts", "mtsx"}
    ensures modifier in {"", "c", "m"} && language in {"j", "t"} && x in {"", "x"}
    ensures ending == modifier + language + "s" + x
  {
    x := if ending[|ending| - 1] == 'x' then "x" else "";
    var rest := ending[..|ending| - |x|];
    modifier := if |rest| == 3 then [rest[0]] else "";
    language := [rest[|rest| - 2]];
  }

  /** The category of a path, read off the path. */
  lemma CategoryOfPath(path: string)
    ensures var c, l := CategoryFor(path), Lower(path);
      && (c.CiSecurityRelease? <==> Sensitive(l))
      && (c.Configuration? <==> !Sensitive(l) && Configures(l))
      && (c.Testing? <==> !Sensitive(l) && !Configures(l) && Tests(l))
      && (c.Documentation? <==> !Sensitive(l) && !Configures(l) && !Tests(l) && Documents(l))
  {
    hide HasPart, Configures, ConfigurationFile, TestSuffix, TestEnding, EndsWith, Lower, LastPart;
    var l := Lower(path);
    HasPartIsSplit(l, "security");
    HasPartIsSplit(l, "release");
    HasPartIsSplit(l, "test");
    HasPartIsSplit(l, "tests");
    HasPartIsSplit(l, "spec");
    HasPartIsSplit(l, "specs");
    ConfigurationIsNamed(l);
    TestSuffixIsEnding(l);
  }

  // Scores.

  function Extra(p: RiskPolicy, key: string): (weight: int)
    ensures key in p.extraWeights ==> weight == p.extraWeights[key]
    ensures key !in p.extraWeights ==> weight == 0
  {
    if key in p.extraWeights then p.extraWeights[key] else 0
  }

  /** A lower-case letter, then also digits and underscores. */
  predicate WeightKey(key: string) {
    && 0 < |key| <= 80 && LowerLetter(key[0])
    && forall c :: c in key ==> LowerLetter(c) || Numeral(c) || c == '_'
  }

  predicate ValidPolicy(p: RiskPolicy) {
    && 0 <= p.automaticThreshold <= GLOBAL_AUTOMATIC_RISK_CEILING
    && forall key :: key in p.extraWeights ==> WeightKey(key) && 0 <= p.extraWeights[key] <= 100
  }

  predicate ValidChange(c: RiskChange) {
    && 0 < |c.path| <= 1024 && !("/" <= c.path) && '\\' !in c.path && SafeParts(c.path)
    && 0 <= c.churn <= 10_000_000
  }

  /** The form of a change: a path that leads inside the repository, and a bounded churn. */
  lemma ChangeLeadsInside(c: RiskChange)
    ensures ValidChange(c) <==>
      |c.path| <= 1024 && '\\' !in c.path && LeadsInside(c.path) && 0 <= c.churn <= 10_000_000
  {
    HasPartIsSplit(c.path, "");
    HasPartIsSplit(c.path, ".");
    HasPartIsSplit(c.path, "..");
    if "/" <= c.path || c.path == "" {
      assert PartAt(c.path, "", 0);
    }
  }

  /** Hundreds of changed lines, rounded up, at most 30. */
  function ChurnScore(churn: int): int
    requires churn >= 0
  {
    var hundreds := (churn + 99) / 100;
    if hundreds < 30 then hundreds else 30
  }

  /** Only positive scores are kept as factors. */
  function Push(path: string, reason: string, score: int): seq<Factor> {
    if score > 0 then [Factor(path, reason, score)] else []
  }

  function FactorsOf(c: RiskChange, p: RiskPolicy): seq<Factor>
    requires ValidChange(c)
  {
    var category := CategoryFor(c.path);
    Push(c.path, NameOf(category), BaseScore(category) + Extra(p, NameOf(category)))
    + (if c.operation.Delete? then Push(c.path, "deletion", 30 + Extra(p, "deletion")) else [])
    + (if c.binary then Push(c.path, "binary", 40 + Extra(p, "binary")) else [])
    + (if c.executableChanged then Push(c.path, "executable_change", 50 + Extra(p, "executable_change")) else [])
    + (if ChurnScore(c.churn) > 0 then Push(c.path, "churn", ChurnScore(c.churn) + Extra(p, "churn")) else [])
  }

  function SumOfFactors(factors: seq<Factor>): int {
    if factors == [] then 0 else SumOfFactors(factors[..|factors| - 1]) + factors[|factors| - 1].score
  }

  function DenialsOf(c: RiskChange): set<HardDenial> {
    (if c.secretDetected then {SecretDetected} else {})
    + (if c.outsideScope then {OutsideScope} else {})
    + (if c.symlink then {Symlink} else {})
    + (if c.submodule then {Submodule} else {})
    + (if c.gitMetadata || c.path == ".git" || ".git/" <= c.path then {GitMetadata} else {})
    + (if !c.proofPresent then {MissingProof} else {})
    + (if !c.declared then {UndeclaredOperation} else {})
  }

  predicate ValidChanges(changes: seq<RiskChange>) {
    forall c :: c in changes ==> ValidChange(c)
  }

  function AllFactors(changes: seq<RiskChange>, p: RiskPolicy): seq<Factor>
    requires ValidChanges(changes)
  {
    if changes == [] then []
    else AllFactors(changes[..|changes| - 1], p) + FactorsOf(changes[|changes| - 1], p)
  }

  function AllDenials(changes: seq<RiskChange>): set<HardDenial> {
    set c, d | c in changes && d in DenialsOf(c) :: d
  }

  /** One change on its own. */
  function ChangeScore(c: RiskChange, p: RiskPolicy): int
    requires ValidChange(c)
  {
    SumOfFactors(FactorsOf(c, p))
  }

  function TotalOf(changes: seq<RiskChange>, p: RiskPolicy): int
    requires ValidChanges(changes)
  {
    SumOfFactors(AllFactors(changes, p))
  }

  lemma {:induction false} SumOfConcat(a: seq<Factor>, b: seq<Factor>)
    ensures SumOfFactors(a + b) == SumOfFactors(a) + SumOfFactors(b)
  {
    if b == [] {
      assert a + b == a;
    } else {
      assert (a + b)[..|a + b| - 1] == a + b[..|b| - 1];
      SumOfConcat(a, b[..|b| - 1]);
    }
  }

  lemma SumOfOne(path: string, reason: string, score: int)
    requires score >= 0
    ensures SumOfFactors(Push(path, reason, score)) == score
  {
    if score > 0 {
      assert [Factor(path, reason, score)][..0] == [];
    }
  }

  /** What a path scores by itself, with the weight the project adds to its class. */
  ghost function PathScore(path: string, p: RiskPolicy): int {
    var l := Lower(path);
    if Sensitive(l) then 50 + Extra(p, "ci_security_release")
    else if Configures(l) then 25 + Extra(p, "configuration")
    else if Tests(l) then 10 + Extra(p, "tests")
    else if Documents(l) then 1 + Extra(p, "documentation")
    else 15 + Extra(p, "source")
  }

  lemma CategoryScore(path: string, p: RiskPolicy)
    ensures BaseScore(CategoryFor(path)) + Extra(p, NameOf(CategoryFor(path))) == PathScore(path, p)
  {
    hide CategoryFor, Sensitive, Configures, Tests, Documents, Lower;
    CategoryOfPath(path);
  }

  /** Hundreds of changed lines, rounded up, at most 30. */
  function ChurnTerm(churn: int): int {
    if churn > 2900 then 30 else (churn + 99) / 100
  }

  /** What a change scores, term by term. */
  lemma ChangeScoreTerms(c: RiskChange, p: RiskPolicy)
    requires ValidChange(c) && ValidPolicy(p)
    ensures ChangeScore(c, p) == PathScore(c.path, p)
        + (if c.operation.Delete? then 30 + Extra(p, "deletion") else 0)
        + (if c.binary then 40 + Extra(p, "binary") else 0)
        + (if c.executableChanged then 50 + Extra(p, "executable_change") else 0)
        + (if c.churn > 0 then ChurnTerm(c.churn) + Extra(p, "churn") else 0)
  {
    hide CategoryFor, SumOfFactors, Push, PathScore;
    CategoryScore(c.path, p);
    var category := CategoryFor(c.path);
    var f0 := Push(c.path, NameOf(category), BaseScore(category) + Extra(p, NameOf(category)));
    var f1 := if c.operation.Delete? then Push(c.path, "deletion", 30 + Extra(p, "deletion")) else [];
    var f2 := if c.binary then Push(c.path, "binary", 40 + Extra(p, "binary")) else [];
    var f3 := if c.executableChanged then Push(c.path, "executable_change", 50 + Extra(p, "executable_change")) else [];
    var f4 := if ChurnScore(c.churn) > 0 then Push(c.path, "churn", ChurnScore(c.churn) + Extra(p, "churn")) else [];
    SumOfConcat(f0 + f1 + f2 + f3, f4);
    SumOfConcat(f0 + f1 + f2, f3);
    SumOfConcat(f0 + f1, f2);
    SumOfConcat(f0, f1);
    EmptySum();
    SumOfOne(c.path, NameOf(category), BaseScore(category) + Extra(p, NameOf(category)));
    SumOfOne(c.path, "deletion", 30 + Extra(p, "deletion"));
    SumOfOne(c.path, "binary", 40 + Extra(p, "binary"));
    SumOfOne(c.path, "executable_change", 50 + Extra(p, "executable_change"));
    if ChurnScore(c.churn) > 0 {
      SumOfOne(c.path, "churn", ChurnScore(c.churn) + Extra(p, "churn"));
    }
  }

  /** Nothing about the change but its path. */
  predicate Unremarkable(c: RiskChange) {
    !c.operation.Delete? && !c.binary && !c.executableChanged && c.churn == 0
  }

  /** The base score tells the class of the path. */
  lemma ScoreTellsPath(c: RiskChange, p: RiskPolicy)
    requires ValidChange(c) && ValidPolicy(p) && Unremarkable(c) && p.extraWeights == map[]
    ensures var score, l := ChangeScore(c, p), Lower(c.path);
      && (score == 50 <==> Sensitive(l))
      && (score == 25 <==> !Sensitive(l) && Configures(l))
      && (score == 10 <==> !Sensitive(l) && !Configures(l) && Tests(l))
      && (score == 1 <==> !Sensitive(l) && !Configures(l) && !Tests(l) && Documents(l))
      && (score == 15 <==> !Sensitive(l) && !Configures(l) && !Tests(l) && !Documents(l))
  {
    hide ChangeScore, Sensitive, Configures, Tests, Documents, Lower;
    ChangeScoreTerms(c, p);
  }

  lemma EmptySum()
    ensures SumOfFactors([]) == 0
  {
  }

  lemma TotalStep(changes: seq<RiskChange>, p: RiskPolicy)
    requires ValidChanges(changes) && changes != []
    ensures TotalOf(changes, p) == TotalOf(changes[..|changes| - 1], p) + ChangeScore(changes[|changes| - 1], p)
  {
    SumOfConcat(AllFactors(changes[..|changes| - 1], p), FactorsOf(changes[|changes| - 1], p));
  }

  /** The threshold weighs nothing. */
  lemma {:induction false} ThresholdWeighsNothing(changes: seq<RiskChange>, p: RiskPolicy, threshold: int)
    requires ValidChanges(changes)
    ensures TotalOf(changes, p.(automaticThreshold := threshold)) == TotalOf(changes, p)
  {
    hide ValidChange, SumOfFactors;
    if changes != [] {
      ThresholdWeighsNothing(changes[..|changes| - 1], p, threshold);
      TotalStep(changes, p);
      TotalStep(changes, p.(automaticThreshold := threshold));
      SameWeights(changes[|changes| - 1], p, threshold);
    }
  }

  lemma SameWeights(c: RiskChange, p: RiskPolicy, threshold: int)
    requires ValidChange(c)
    ensures FactorsOf(c, p.(automaticThreshold := threshold)) == FactorsOf(c, p)
  {
    hide CategoryFor, ValidChange, Extra, NameOf, BaseScore, ChurnScore;
    forall key: string
      ensures Extra(p.(automaticThreshold := threshold), key) == Extra(p, key)
    {
      SameWeight(p, threshold, key);
    }
  }

  lemma SameWeight(p: RiskPolicy, threshold: int, key: string)
    ensures Extra(p.(automaticThreshold := threshold), key) == Extra(p, key)
  {
  }

  /** Assesses a change list; the loop pushes factors and collects denials. */
  method AssessRisk(changes: seq<RiskChange>, p: RiskPolicy, modelAddition: int)
      returns (r: Result<Assessment, RiskError>)
    ensures r.Ok? <==> ValidPolicy(p) && 0 < |changes| <= 10_000 && 0 <= modelAddition <= 20 && ValidChanges(changes)
    ensures r.Ok? ==>
      && r.value.factors == AllFactors(changes, p)
      && r.value.deterministicScore == TotalOf(changes, p) && r.value.modelAddition == modelAddition
      && r.value.hardDenials == AllDenials(changes)
      && (r.value.automaticEligible <==>
        AllDenials(changes) == {} && TotalOf(changes, p) + modelAddition <= p.automaticThreshold)
  {
    hide FactorsOf, DenialsOf;
    if !ValidPolicy(p) {
      return Err(InvalidPolicy);
    }
    if |changes| == 0 || |changes| > 10_000 {
      return Err(InvalidChanges);
    }
    if modelAddition < 0 || modelAddition > 20 {
      return Err(InvalidModelAddition);
    }
    var factors: seq<Factor> := [];
    var denials: set<HardDenial> := {};
    var i := 0;
    while i < |changes|
      invariant 0 <= i <= |changes|
      invariant ValidChanges(changes[..i])
      invariant factors == AllFactors(changes[..i], p)
      invariant denials == AllDenials(changes[..i])
    {
      var change := changes[i];
      if !ValidChange(change) {
        assert change in changes;
        return Err(InvalidChange);
      }
      assert changes[..i + 1] == changes[..i] + [change];
      assert changes[..i + 1][..i] == changes[..i];
      factors := factors + FactorsOf(change, p);
      denials := denials + DenialsOf(change);
      i := i + 1;
    }
    assert changes[..i] == changes;
    var score := SumOfFactors(factors);
    return Ok(Assessment(score, modelAddition, denials, factors, denials == {} &&
      score + modelAddition <= p.automaticThreshold));
  }

  // What automatic eligibility implies.

  function TotalChurn(changes: seq<RiskChange>): int {
    if changes == [] then 0 else TotalChurn(changes[..|changes| - 1]) + changes[|changes| - 1].churn
  }

  /** Neither tests nor documentation, and nothing that weighs more than source. */
  ghost predicate IsSource(c: RiskChange) {
    var l := Lower(c.path);
    !Sensitive(l) && !Configures(l) && !Tests(l) && !Documents(l)
  }

  ghost function SourceChanges(changes: seq<RiskChange>): int {
    if changes == [] then 0
    else SourceChanges(changes[..|changes| - 1]) + (if IsSource(changes[|changes| - 1]) then 1 else 0)
  }

  /** No deletion, nothing binary or executable, no CI, security, release or configuration file. */
  ghost predicate Harmless(c: RiskChange) {
    && !c.operation.Delete? && !c.binary && !c.executableChanged
    && !Sensitive(Lower(c.path)) && !Configures(Lower(c.path))
  }

  /** No secret, no link, nothing outside what was declared and proved. */
  predicate Undenied(c: RiskChange) {
    && !c.secretDetected && !c.outsideScope && !c.symlink && !c.submodule && !c.gitMetadata
    && c.path != ".git" && !(".git/" <= c.path) && c.proofPresent && c.declared
  }

  lemma ChangeBounds(c: RiskChange, p: RiskPolicy)
    requires ValidChange(c) && ValidPolicy(p)
    ensures ChangeScore(c, p) >= 1
    ensures IsSource(c) ==> ChangeScore(c, p) >= 15
    ensures ChangeScore(c, p) <= 20 ==> Harmless(c) && c.churn <= 100 * (ChangeScore(c, p) - 1)
  {
    hide ChangeScore, Sensitive, Configures, Tests, Documents, Lower;
    ChangeScoreTerms(c, p);
  }

  lemma {:induction false} TotalBounds(changes: seq<RiskChange>, p: RiskPolicy)
    requires ValidChanges(changes) && ValidPolicy(p)
    ensures TotalOf(changes, p) >= |changes|
    ensures 15 * SourceChanges(changes) <= TotalOf(changes, p)
    ensures TotalOf(changes, p) <= 20 ==>
      && (forall c :: c in changes ==> Harmless(c))
      && TotalChurn(changes) <= 100 * (TotalOf(changes, p) - |changes|)
  {
    hide FactorsOf, ChangeScore, Harmless, ValidChange, IsSource;
    if changes != [] {
      var rest, last := changes[..|changes| - 1], changes[|changes| - 1];
      assert changes == rest + [last];
      TotalBounds(rest, p);
      ChangeBounds(last, p);
      TotalStep(changes, p);
    }
  }

  lemma {:induction false} SourcePair(changes: seq<RiskChange>, i: nat, j: nat)
    requires i < j < |changes| && IsSource(changes[i]) && IsSource(changes[j])
    ensures SourceChanges(changes) >= 2
  {
    hide IsSource;
    var n := |changes| - 1;
    SourcesCounted(changes[..n]);
    if j < n {
      SourcePair(changes[..n], i, j);
    } else {
      SourceOne(changes[..n], i);
    }
  }

  lemma {:induction false} SourceOne(changes: seq<RiskChange>, i: nat)
    requires i < |changes| && IsSource(changes[i])
    ensures SourceChanges(changes) >= 1
  {
    hide IsSource;
    var n := |changes| - 1;
    SourcesCounted(changes[..n]);
    if i < n {
      SourceOne(changes[..n], i);
    }
  }

  lemma {:induction false} SourcesCounted(changes: seq<RiskChange>)
    ensures SourceChanges(changes) >= 0
  {
    if changes != [] {
      SourcesCounted(changes[..|changes| - 1]);
    }
  }

  /** A denial is there exactly if some change gives cause for it. */
  lemma DenialHasCause(changes: seq<RiskChange>, d: HardDenial)
    ensures d in AllDenials(changes) <==> exists c :: c in changes && Causes(c, d)
    ensures AllDenials(changes) == {} <==> forall c :: c in changes ==> Undenied(c)
  {
    hide DenialsOf, Causes, Undenied;
    forall c, e
      ensures e in DenialsOf(c) <==> Causes(c, e)
    {
      DenialOf(c, e);
    }
    forall c
      ensures Undenied(c) <==> forall e :: !Causes(c, e)
    {
      UndeniedIsCauseless(c);
    }
    if c :| c in changes && !Undenied(c) {
      var e :| Causes(c, e);
      assert e in AllDenials(changes);
    }
  }

  lemma DenialOf(c: RiskChange, d: HardDenial)
    ensures d in DenialsOf(c) <==> Causes(c, d)
  {
  }

  predicate Causes(c: RiskChange, d: HardDenial) {
    match d
    case SecretDetected => c.secretDetected
    case OutsideScope => c.outsideScope
    case Symlink => c.symlink
    case Submodule => c.submodule
    case GitMetadata => c.gitMetadata || c.path == ".git" || ".git/" <= c.path
    case MissingProof => !c.proofPresent
    case UndeclaredOperation => !c.declared
  }

  lemma UndeniedIsCauseless(c: RiskChange)
    ensures Undenied(c) <==> forall e :: !Causes(c, e)
  {
    if forall e :: !Causes(c, e) {
      assert !Causes(c, SecretDetected) && !Causes(c, OutsideScope) && !Causes(c, Symlink) && !Causes(c, Submodule);
      assert !Causes(c, GitMetadata) && !Causes(c, MissingProof) && !Causes(c, UndeclaredOperation);
    }
  }

  /** A change list that may be applied automatically is small and harmless, whatever the policy. */
  lemma EligibleIsHarmless(changes: seq<RiskChange>, p: RiskPolicy, modelAddition: int)
    requires ValidChanges(changes) && ValidPolicy(p) && modelAddition >= 0
    requires AllDenials(changes) == {} && TotalOf(changes, p) + modelAddition <= p.automaticThreshold
    ensures |changes| <= 20
    ensures forall c :: c in changes ==> Harmless(c) && Undenied(c)
    ensures forall i, j :: 0 <= i < j < |changes| ==> !IsSource(changes[i]) || !IsSource(changes[j])
    ensures TotalChurn(changes) <= 100 * (p.automaticThreshold - |changes|)
  {
    hide FactorsOf, AllFactors, Harmless, IsSource, AllDenials, Undenied;
    TotalBounds(changes, p);
    DenialHasCause(changes, SecretDetected);
    forall i, j | 0 <= i < j < |changes| && IsSource(changes[i]) && IsSource(changes[j])
      ensures false
    {
      SourcePair(changes, i, j);
    }
  }

  // Order and monotonicity.

  function Without(changes: seq<RiskChange>, i: nat): (r: seq<RiskChange>)
    requires i < |changes|
    ensures |r| == |changes| - 1
    ensures ValidChanges(changes) ==> ValidChanges(r)
  {
    changes[..i] + changes[i + 1..]
  }

  lemma WithoutEarlier(changes: seq<RiskChange>, i: nat)
    requires i + 1 < |changes|
    ensures Without(changes, i)[..|changes| - 2] == Without(changes[..|changes| - 1], i)
    ensures Without(changes, i)[|changes| - 2] == changes[|changes| - 1]
  {
  }

  lemma WithoutElements(changes: seq<RiskChange>, i: nat)
    requires i < |changes|
    ensures multiset(Without(changes, i)) == multiset(changes) - multiset{changes[i]}
  {
    assert changes == changes[..i] + [changes[i]] + changes[i + 1..];
  }

  lemma {:induction false} RemoveOne(changes: seq<RiskChange>, p: RiskPolicy, i: nat)
    requires ValidChanges(changes) && i < |changes|
    ensures TotalOf(changes, p) == TotalOf(Without(changes, i), p) + ChangeScore(changes[i], p)
  {
    hide TotalOf, FactorsOf, ChangeScore, ValidChange, Without;
    var n := |changes| - 1;
    TotalStep(changes, p);
    if i == n {
      assert Without(changes, i) == changes[..n] by {
        LastWithout(changes);
      }
    } else {
      RemoveOne(changes[..n], p, i);
      WithoutEarlier(changes, i);
      TotalStep(Without(changes, i), p);
    }
  }

  lemma LastWithout(changes: seq<RiskChange>)
    requires changes != []
    ensures Without(changes, |changes| - 1) == changes[..|changes| - 1]
  {
  }

  /** Reordering the change list changes neither the score nor the denials. */
  lemma {:induction false} OrderIrrelevant(one: seq<RiskChange>, other: seq<RiskChange>, p: RiskPolicy)
    requires ValidChanges(one) && ValidChanges(other) && multiset(one) == multiset(other)
    ensures TotalOf(one, p) == TotalOf(other, p)
    ensures AllDenials(one) == AllDenials(other)
    decreases |one|
  {
    SameElements(one, other);
    TotalOrderIrrelevant(one, other, p);
  }

  /** The last element of one list stands somewhere in the other, and dropping both leaves the same elements. */
  lemma MatchLast(one: seq<RiskChange>, other: seq<RiskChange>) returns (i: nat)
    requires multiset(one) == multiset(other) && one != []
    ensures i < |other| && other[i] == one[|one| - 1]
    ensures multiset(Without(one, |one| - 1)) == multiset(Without(other, i))
  {
    hide Without, ValidChanges;
    SameElements(one, other);
    var last := one[|one| - 1];
    assert last in one;
    i :| 0 <= i < |other| && other[i] == last;
    WithoutElements(one, |one| - 1);
    WithoutElements(other, i);
  }

  lemma {:induction false} TotalOrderIrrelevant(one: seq<RiskChange>, other: seq<RiskChange>, p: RiskPolicy)
    requires ValidChanges(one) && ValidChanges(other) && multiset(one) == multiset(other)
    ensures TotalOf(one, p) == TotalOf(other, p)
    decreases |one|
  {
    if one == [] {
      SameElements(one, other);
    } else {
      hide TotalOf, FactorsOf, ChangeScore, ValidChange, Without;
      var i := MatchLast(one, other);
      RemoveOne(one, p, |one| - 1);
      RemoveOne(other, p, i);
      TotalOrderIrrelevant(Without(one, |one| - 1), Without(other, i), p);
    }
  }

  /** `q` asks at least the weights of `p`. */
  ghost predicate AtLeast(p: RiskPolicy, q: RiskPolicy) {
    forall key :: key in p.extraWeights || key in q.extraWeights ==> Extra(p, key) <= Extra(q, key)
  }

  lemma HeavierKey(p: RiskPolicy, q: RiskPolicy, key: string)
    requires AtLeast(p, q)
    ensures Extra(p, key) <= Extra(q, key)
  {
  }

  lemma HeavierChange(c: RiskChange, p: RiskPolicy, q: RiskPolicy)
    requires ValidChange(c) && ValidPolicy(p) && ValidPolicy(q) && AtLeast(p, q)
    ensures ChangeScore(c, p) <= ChangeScore(c, q)
  {
    hide ChangeScore, Sensitive, Configures, Tests, Documents, Lower, ValidChange, ValidPolicy, AtLeast, Extra;
    ChangeScoreTerms(c, p);
    ChangeScoreTerms(c, q);
    forall key: string
      ensures Extra(p, key) <= Extra(q, key)
    {
      HeavierKey(p, q, key);
    }
  }

  /** More weight never lowers a score; one more change raises it and lifts no denial. */
  lemma {:induction false} RiskOnlyGrows(changes: seq<RiskChange>, p: RiskPolicy, q: RiskPolicy, more: RiskChange)
    requires ValidChanges(changes) && ValidPolicy(p) && ValidPolicy(q) && AtLeast(p, q) && ValidChange(more)
    ensures TotalOf(changes, p) <= TotalOf(changes, q)
    ensures TotalOf(changes, p) < TotalOf(changes + [more], p)
    ensures AllDenials(changes) <= AllDenials(changes + [more])
  {
    hide FactorsOf, ChangeScore, ValidChange, DenialsOf, AtLeast;
    assert (changes + [more])[..|changes|] == changes;
    TotalStep(changes + [more], p);
    ChangeBounds(more, p);
    if changes != [] {
      var n := |changes| - 1;
      RiskOnlyGrows(changes[..n], p, q, more);
      TotalStep(changes, p);
      TotalStep(changes, q);
      HeavierChange(changes[n], p, q);
    }
  }

}
