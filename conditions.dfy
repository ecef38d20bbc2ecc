/**
 * The catalog of merge conditions: the closed set of named checks the
 * action evaluates for every rule, the list of their names in catalog
 * order, and the record that holds one result per condition.
 *
 * The evaluators themselves are not part of this model; a condition is
 * identified here only by its name.
 */
module Conditions {
  import opened Wrappers

  /** One constructor per entry of the catalog, in catalog order. */
  datatype ConditionName =
    | BlockingBody
    | BlockingBaseBranches
    | BlockingChecks
    | BlockingLabels
    | BlockingLabelsRegex
    | BlockingTitle
    | MaximumChangesRequested
    | Mergeable
    | MinimumApprovals
    | RequiredAuthorRole
    | RequiredReviewers
    | Open
    | RequiredBaseBranches
    | RequiredBody
    | RequiredLabels
    | RequiredLabelsRegex
    | RequiredTitle

  /** The catalog key under which a condition is registered. */
  function Key(n: ConditionName): (k: string)
    ensures |k| > 0 && 'a' <= k[0] <= 'z'
  {
    match n
    case BlockingBody => "blockingBody"
    case BlockingBaseBranches => "blockingBaseBranches"
    case BlockingChecks => "blockingChecks"
    case BlockingLabels => "blockingLabels"
    case BlockingLabelsRegex => "blockingLabelsRegex"
    case BlockingTitle => "blockingTitle"
    case MaximumChangesRequested => "maximumChangesRequested"
    case Mergeable => "mergeable"
    case MinimumApprovals => "minimumApprovals"
    case RequiredAuthorRole => "requiredAuthorRole"
    case RequiredReviewers => "requiredReviewers"
    case Open => "open"
    case RequiredBaseBranches => "requiredBaseBranches"
    case RequiredBody => "requiredBody"
    case RequiredLabels => "requiredLabels"
    case RequiredLabelsRegex => "requiredLabelsRegex"
    case RequiredTitle => "requiredTitle"
  }

  /** `conditionNames`: the catalog's keys in the order the catalog lists them. */
  const ConditionNames: seq<ConditionName> := [
    BlockingBody, BlockingBaseBranches, BlockingChecks, BlockingLabels,
    BlockingLabelsRegex, BlockingTitle, MaximumChangesRequested, Mergeable,
    MinimumApprovals, RequiredAuthorRole, RequiredReviewers, Open,
    RequiredBaseBranches, RequiredBody, RequiredLabels, RequiredLabelsRegex,
    RequiredTitle
  ]

  /** The catalog's keys as strings, as `keysOf` returns them. */
  function CatalogKeys(names: seq<ConditionName>): (keys: seq<string>)
    ensures |keys| == |names|
    ensures forall i :: 0 <= i < |names| ==> keys[i] == Key(names[i])
  {
    if names == [] then [] else [Key(names[0])] + CatalogKeys(names[1..])
  }

  /** Looking a string up among `names`: a listed name whose key it is. */
  function ParseFrom(s: string, names: seq<ConditionName>): (r: Option<ConditionName>)
    ensures r.Some? ==> r.value in names && Key(r.value) == s
    ensures r.None? <==> forall n :: n in names ==> Key(n) != s
  {
    if names == [] then None
    else if Key(names[0]) == s then Some(names[0])
    else ParseFrom(s, names[1..])
  }

  /** Indexing the catalog by a string: the condition registered under it, if any. */
  function Parse(s: string): (r: Option<ConditionName>)
    ensures r.Some? ==> Key(r.value) == s
  {
    ParseFrom(s, ConditionNames)
  }

  /** The catalog holds seventeen conditions. */
  lemma CatalogSize()
    ensures |ConditionNames| == 17
    ensures |CatalogKeys(ConditionNames)| == 17
  {
  }

  /** Every condition name is listed. */
  lemma {:induction false} ConditionNamesComplete(n: ConditionName)
    ensures n in ConditionNames
  {
    match n
    case BlockingBody => assert ConditionNames[0] == n;
    case BlockingBaseBranches => assert ConditionNames[1] == n;
    case BlockingChecks => assert ConditionNames[2] == n;
    case BlockingLabels => assert ConditionNames[3] == n;
    case BlockingLabelsRegex => assert ConditionNames[4] == n;
    case BlockingTitle => assert ConditionNames[5] == n;
    case MaximumChangesRequested => assert ConditionNames[6] == n;
    case Mergeable => assert ConditionNames[7] == n;
    case MinimumApprovals => assert ConditionNames[8] == n;
    case RequiredAuthorRole => assert ConditionNames[9] == n;
    case RequiredReviewers => assert ConditionNames[10] == n;
    case Open => assert ConditionNames[11] == n;
    case RequiredBaseBranches => assert ConditionNames[12] == n;
    case RequiredBody => assert ConditionNames[13] == n;
    case RequiredLabels => assert ConditionNames[14] == n;
    case RequiredLabelsRegex => assert ConditionNames[15] == n;
    case RequiredTitle => assert ConditionNames[16] == n;
  }

  lemma AllConditionNamesListed()
    ensures forall n: ConditionName :: n in ConditionNames
  {
    forall n: ConditionName
      ensures n in ConditionNames
    {
      ConditionNamesComplete(n);
    }
  }

  /** Each condition name is listed exactly once. */
  lemma ConditionNamesDistinct()
    ensures forall i, j :: 0 <= i < j < |ConditionNames| ==> ConditionNames[i] != ConditionNames[j]
  {
  }

  /** Distinct conditions are registered under distinct keys, so each key appears once. */
  lemma {:induction false} KeysDistinct()
    ensures forall i, j :: 0 <= i < j < |ConditionNames| ==> Key(ConditionNames[i]) != Key(ConditionNames[j])
  {
    forall i, j | 0 <= i < j < |ConditionNames|
      ensures Key(ConditionNames[i]) != Key(ConditionNames[j])
    {
      KeyDiffers(ConditionNames[i], ConditionNames[j]);
    }
  }

  /** Length, first and ninth character of a key: enough to tell the catalog's keys apart. */
  function Fingerprint(k: string): (f: (int, char, char))
    ensures f.0 == |k|
  {
    (|k|, if |k| > 0 then k[0] else ' ', if |k| > 8 then k[8] else ' ')
  }

  /** The condition whose key has the given fingerprint, if any. */
  function Identify(f: (int, char, char)): (r: Option<ConditionName>)
    ensures r.Some? ==> f.0 == |Key(r.value)|
  {
    match f
    case (12, 'b', _) => Some(BlockingBody)
    case (20, 'b', _) => Some(BlockingBaseBranches)
    case (14, 'b', 'C') => Some(BlockingChecks)
    case (14, 'b', 'L') => Some(BlockingLabels)
    case (19, 'b', _) => Some(BlockingLabelsRegex)
    case (13, 'b', _) => Some(BlockingTitle)
    case (23, _, _) => Some(MaximumChangesRequested)
    case (9, _, _) => Some(Mergeable)
    case (16, _, _) => Some(MinimumApprovals)
    case (18, _, _) => Some(RequiredAuthorRole)
    case (17, _, _) => Some(RequiredReviewers)
    case (4, _, _) => Some(Open)
    case (20, 'r', _) => Some(RequiredBaseBranches)
    case (12, 'r', _) => Some(RequiredBody)
    case (14, 'r', 'L') => Some(RequiredLabels)
    case (19, 'r', _) => Some(RequiredLabelsRegex)
    case (13, 'r', _) => Some(RequiredTitle)
    case _ => None
  }

  lemma IdentifyKey(n: ConditionName)
    ensures Identify(Fingerprint(Key(n))) == Some(n)
  {
  }

  /** Distinct conditions are registered under distinct keys. */
  lemma KeyDiffers(a: ConditionName, b: ConditionName)
    requires a != b
    ensures Key(a) != Key(b)
  {
    IdentifyKey(a);
    IdentifyKey(b);
  }

  /** Parsing a condition's key gives back that condition. */
  lemma ParseKey(n: ConditionName)
    ensures Parse(Key(n)) == Some(n)
  {
    AllConditionNamesListed();
    var m := Parse(Key(n)).value;
    if m != n {
      KeyDiffers(m, n);
    }
  }

  /** A string is a condition's key exactly when it parses. */
  lemma ParseExact(s: string)
    ensures Parse(s).None? <==> forall n: ConditionName :: Key(n) != s
  {
    AllConditionNamesListed();
  }

  /** `requiredChecks` is commented out of the catalog, so it names no condition. */
  lemma RequiredChecksIsDisabled()
    ensures Parse("requiredChecks") == None
    ensures forall n: ConditionName :: Key(n) != "requiredChecks"
  {
    forall n: ConditionName
      ensures Key(n) != "requiredChecks"
    {
      RequiredChecksIsNoKey(n);
    }
    ParseExact("requiredChecks");
  }

  lemma RequiredChecksIsNoKey(n: ConditionName)
    ensures Key(n) != "requiredChecks"
  {
    var k := "requiredChecks";
    assert Fingerprint(k) == (14, 'r', 'C');
    IdentifyKey(n);
  }

  /** `blockingChecks` remains in the catalog. */
  lemma BlockingChecksIsEnabled()
    ensures Parse("blockingChecks") == Some(BlockingChecks)
  {
    ParseKey(BlockingChecks);
  }

  /** The outcome of one condition: pending means not yet decidable, never success. */
  datatype ConditionStatus = Success | Failure | Pending

  datatype ConditionResult = ConditionResult(status: ConditionStatus, message: Option<string>)

  /** Every name of the catalog has an entry. */
  predicate Total<V>(m: map<ConditionName, V>) {
    forall n <- ConditionNames :: n in m
  }

  /** `ConditionResults`: exactly one result for every condition of the catalog. */
  type ConditionResults = m: map<ConditionName, ConditionResult> | Total(m)
    witness AllPending

  const AllPending: map<ConditionName, ConditionResult> := map[
    BlockingBody := ConditionResult(Pending, None),
    BlockingBaseBranches := ConditionResult(Pending, None),
    BlockingChecks := ConditionResult(Pending, None),
    BlockingLabels := ConditionResult(Pending, None),
    BlockingLabelsRegex := ConditionResult(Pending, None),
    BlockingTitle := ConditionResult(Pending, None),
    MaximumChangesRequested := ConditionResult(Pending, None),
    Mergeable := ConditionResult(Pending, None),
    MinimumApprovals := ConditionResult(Pending, None),
    RequiredAuthorRole := ConditionResult(Pending, None),
    RequiredReviewers := ConditionResult(Pending, None),
    Open := ConditionResult(Pending, None),
    RequiredBaseBranches := ConditionResult(Pending, None),
    RequiredBody := ConditionResult(Pending, None),
    RequiredLabels := ConditionResult(Pending, None),
    RequiredLabelsRegex := ConditionResult(Pending, None),
    RequiredTitle := ConditionResult(Pending, None)
  ]

  /** The results of evaluating `evaluate` on each name of `names`. */
  function TabulateFrom(names: seq<ConditionName>, evaluate: ConditionName -> ConditionResult): (m: map<ConditionName, ConditionResult>)
    ensures m.Keys == set n | n in names
    ensures forall n :: n in m ==> m[n] == evaluate(n)
  {
    if names == [] then map[]
    else TabulateFrom(names[1..], evaluate)[names[0] := evaluate(names[0])]
  }

  /** The results record built by evaluating every condition of the catalog. */
  function Tabulate(evaluate: ConditionName -> ConditionResult): (results: ConditionResults)
    ensures forall n: ConditionName :: n in results && results[n] == evaluate(n)
  {
    AllConditionNamesListed();
    TabulateFrom(ConditionNames, evaluate)
  }

  /** A results record holds a result for every condition name, whichever way it was built. */
  lemma ResultsAreTotal(results: ConditionResults, n: ConditionName)
    ensures n in results
  {
    ConditionNamesComplete(n);
  }
}
