/**
 * Configuration of the merge bot: the default values, the decoder the
 * resolved configuration is validated with, and the resolution of a user's
 * configuration file (defaults laid under the user's record, each explicit
 * rule laid over the default rule) into a typed `Config`.
 *
 * Patterns are opaque here: `P` is the pattern type and `pd` its decoder.
 */
module Config {
  import opened Wrappers
  import opened JsonValues
  import opened Decoders

  /** A pull-request author's association with the repository. */
  datatype Role =
    | Member
    | Owner
    | Collaborator
    | Contributor
    | FirstTimeContributor
    | FirstTimer
    | NoAssociation

  /** The association's name as it appears in configuration files. */
  function RoleName(r: Role): string {
    match r
    case Member => "MEMBER"
    case Owner => "OWNER"
    case Collaborator => "COLLABORATOR"
    case Contributor => "CONTRIBUTOR"
    case FirstTimeContributor => "FIRST_TIME_CONTRIBUTOR"
    case FirstTimer => "FIRST_TIMER"
    case NoAssociation => "NONE"
  }

  /** The associations in the order the decoders try them. */
  const Roles: seq<Role> :=
    [Member, Owner, Collaborator, Contributor, FirstTimeContributor, FirstTimer, NoAssociation]

  /** Every association is one the decoders try. */
  lemma RolesComplete(r: Role)
    ensures r in Roles
  {
    match r
    case Member => assert Roles[0] == r;
    case Owner => assert Roles[1] == r;
    case Collaborator => assert Roles[2] == r;
    case Contributor => assert Roles[3] == r;
    case FirstTimeContributor => assert Roles[4] == r;
    case FirstTimer => assert Roles[5] == r;
    case NoAssociation => assert Roles[6] == r;
  }

  datatype MergeMethod = Merge | Rebase | Squash

  function MergeMethodName(m: MergeMethod): string {
    match m
    case Merge => "merge"
    case Rebase => "rebase"
    case Squash => "squash"
  }

  /** The settings of one rule: one parameter per condition. */
  datatype RuleConfig<P> = RuleConfig(
    minApprovals: map<Role, real>,
    requiredReviewers: seq<string>,
    maxRequestedChanges: map<Role, real>,
    requiredLabels: seq<P>,
    blockingLabels: seq<P>,
    requiredLabelsRegex: seq<string>,
    blockingLabelsRegex: seq<string>,
    requiredTitleRegex: Option<string>,
    blockingTitleRegex: Option<string>,
    requiredBodyRegex: Option<string>,
    blockingBodyRegex: Option<string>,
    requiredBaseBranches: seq<P>,
    blockingBaseBranches: seq<P>,
    requiredAuthorRole: Role)

  /** A repository's configuration: the explicit rules, the top-level rule and the merge settings. */
  datatype Config<P> = Config(
    rules: seq<RuleConfig<P>>,
    conditions: RuleConfig<P>,
    updateBranch: bool,
    deleteBranchAfterMerge: bool,
    mergeMethod: MergeMethod,
    mergeCommitMessage: Option<string>,
    reportStatus: bool)

  // ---------------------------------------------------------------------------
  // Defaults, as the record literals the resolution spreads

  /** `defaultRuleConfig`: the regex settings are present and hold `undefined`. */
  const DefaultRuleFields: map<string, Json> := map[
    "minApprovals" := Obj(map[]),
    "requiredReviewers" := Arr([]),
    "maxRequestedChanges" := Obj(map["NONE" := Num(0.0)]),
    "requiredLabels" := Arr([]),
    "blockingLabels" := Arr([]),
    "requiredLabelsRegex" := Arr([]),
    "blockingLabelsRegex" := Arr([]),
    "requiredTitleRegex" := Undefined,
    "blockingTitleRegex" := Undefined,
    "requiredBodyRegex" := Undefined,
    "blockingBodyRegex" := Undefined,
    "blockingBaseBranches" := Arr([]),
    "requiredBaseBranches" := Arr([]),
    "requiredAuthorRole" := Str("NONE")
  ]

  /** `defaultConfig`: the merge settings followed by `...defaultRuleConfig`. */
  const DefaultConfigFields: map<string, Json> := map[
    "rules" := Arr([]),
    "updateBranch" := Bool(false),
    "deleteBranchAfterMerge" := Bool(false),
    "mergeMethod" := Str("merge"),
    "reportStatus" := Bool(false)
  ] + DefaultRuleFields

  /** The typed value of `defaultRuleConfig`. */
  function DefaultRuleConfig<P>(): RuleConfig<P> {
    RuleConfig(
      map[], [], map[NoAssociation := 0.0], [], [], [], [],
      None, None, None, None, [], [], NoAssociation)
  }

  /** The typed value of `defaultConfig`. */
  function DefaultConfig<P>(): Config<P> {
    Config([], DefaultRuleConfig(), false, false, Merge, None, false)
  }

  // ---------------------------------------------------------------------------
  // What a document says: the reference the decoders are specified against

  ghost predicate DescribesRole(j: Json, r: Role) {
    j == Str(RoleName(r))
  }

  ghost predicate DescribesMergeMethod(j: Json, m: MergeMethod) {
    j == Str(MergeMethodName(m))
  }

  /** An object whose role keys hold the counts of `m` and nothing for the other roles. */
  ghost predicate DescribesCounts(j: Json, m: map<Role, real>) {
    j.Obj? &&
    forall r: Role :: Lookup(j.fields, RoleName(r)) == (if r in m then Num(m[r]) else Undefined)
  }

  ghost predicate DescribesStrings(j: Json, ss: seq<string>) {
    j.Arr? && |j.elems| == |ss| &&
    forall i :: 0 <= i < |ss| ==> j.elems[i] == Str(ss[i])
  }

  ghost predicate DescribesOptString(j: Json, o: Option<string>) {
    if o.Some? then j == Str(o.value) else j == Undefined
  }

  ghost predicate DescribesPatterns<P>(pd: Decoder<P>, j: Json, ps: seq<P>) {
    j.Arr? && |j.elems| == |ps| &&
    forall i :: 0 <= i < |ps| ==> pd(j.elems[i]) == Success(ps[i])
  }

  /** The review settings: per-role approval and requested-change counts and the named reviewers. */
  ghost predicate DescribesReviews(f: map<string, Json>, minApprovals: map<Role, real>, reviewers: seq<string>, maxChanges: map<Role, real>) {
    && DescribesCounts(Lookup(f, "minApprovals"), minApprovals)
    && DescribesStrings(Lookup(f, "requiredReviewers"), reviewers)
    && DescribesCounts(Lookup(f, "maxRequestedChanges"), maxChanges)
  }

  /** The label settings: label patterns and label regexes. */
  ghost predicate DescribesLabels<P>(pd: Decoder<P>, f: map<string, Json>, required: seq<P>, blocking: seq<P>, requiredRegex: seq<string>, blockingRegex: seq<string>) {
    && DescribesPatterns(pd, Lookup(f, "requiredLabels"), required)
    && DescribesPatterns(pd, Lookup(f, "blockingLabels"), blocking)
    && DescribesStrings(Lookup(f, "requiredLabelsRegex"), requiredRegex)
    && DescribesStrings(Lookup(f, "blockingLabelsRegex"), blockingRegex)
  }

  /** The title and body regexes. */
  ghost predicate DescribesTexts(f: map<string, Json>, requiredTitle: Option<string>, blockingTitle: Option<string>, requiredBody: Option<string>, blockingBody: Option<string>) {
    && DescribesOptString(Lookup(f, "requiredTitleRegex"), requiredTitle)
    && DescribesOptString(Lookup(f, "blockingTitleRegex"), blockingTitle)
    && DescribesOptString(Lookup(f, "requiredBodyRegex"), requiredBody)
    && DescribesOptString(Lookup(f, "blockingBodyRegex"), blockingBody)
  }

  /** The base-branch patterns. */
  ghost predicate DescribesBranches<P>(pd: Decoder<P>, f: map<string, Json>, required: seq<P>, blocking: seq<P>) {
    && DescribesPatterns(pd, Lookup(f, "requiredBaseBranches"), required)
    && DescribesPatterns(pd, Lookup(f, "blockingBaseBranches"), blocking)
  }

  /** An object whose condition keys hold the settings of `rc`. */
  ghost predicate DescribesRule<P>(pd: Decoder<P>, j: Json, rc: RuleConfig<P>) {
    j.Obj? &&
    var f := j.fields;
    && DescribesReviews(f, rc.minApprovals, rc.requiredReviewers, rc.maxRequestedChanges)
    && DescribesLabels(pd, f, rc.requiredLabels, rc.blockingLabels, rc.requiredLabelsRegex, rc.blockingLabelsRegex)
    && DescribesTexts(f, rc.requiredTitleRegex, rc.blockingTitleRegex, rc.requiredBodyRegex, rc.blockingBodyRegex)
    && DescribesBranches(pd, f, rc.requiredBaseBranches, rc.blockingBaseBranches)
    && DescribesRole(Lookup(f, "requiredAuthorRole"), rc.requiredAuthorRole)
  }

  ghost predicate DescribesRules<P>(pd: Decoder<P>, j: Json, rs: seq<RuleConfig<P>>) {
    j.Arr? && |j.elems| == |rs| &&
    forall i :: 0 <= i < |rs| ==> DescribesRule(pd, j.elems[i], rs[i])
  }

  /** A record whose keys hold the whole configuration `c`. */
  ghost predicate DescribesConfig<P>(pd: Decoder<P>, j: Json, c: Config<P>) {
    && DescribesRule(pd, j, c.conditions)
    && var f := j.fields;
    && DescribesRules(pd, Lookup(f, "rules"), c.rules)
    && Lookup(f, "updateBranch") == Bool(c.updateBranch)
    && Lookup(f, "deleteBranchAfterMerge") == Bool(c.deleteBranchAfterMerge)
    && Lookup(f, "reportStatus") == Bool(c.reportStatus)
    && DescribesMergeMethod(Lookup(f, "mergeMethod"), c.mergeMethod)
    && DescribesOptString(Lookup(f, "mergeCommitMessage"), c.mergeCommitMessage)
  }

  // ---------------------------------------------------------------------------
  // Decoders

  /** `commentAuthorAssociation`: one of the seven association names. */
  function DecodeRole(j: Json): (r: Result<Role, DecoderError>)
    ensures r.Success? ==> DescribesRole(j, r.value)
    ensures r.Failure? ==> forall role :: !DescribesRole(j, role)
  {
    if j == Str("MEMBER") then Success(Member)
    else if j == Str("OWNER") then Success(Owner)
    else if j == Str("COLLABORATOR") then Success(Collaborator)
    else if j == Str("CONTRIBUTOR") then Success(Contributor)
    else if j == Str("FIRST_TIME_CONTRIBUTOR") then Success(FirstTimeContributor)
    else if j == Str("FIRST_TIMER") then Success(FirstTimer)
    else if j == Str("NONE") then Success(NoAssociation)
    else Failure(DecoderError([], NoAlternativeMatched))
  }

  /** The `mergeMethod` decoder: one of the three merge method names. */
  function DecodeMergeMethod(j: Json): (r: Result<MergeMethod, DecoderError>)
    ensures r.Success? ==> DescribesMergeMethod(j, r.value)
    ensures r.Failure? ==> forall m :: !DescribesMergeMethod(j, m)
  {
    if j == Str("merge") then Success(Merge)
    else if j == Str("rebase") then Success(Rebase)
    else if j == Str("squash") then Success(Squash)
    else Failure(DecoderError([], NoAlternativeMatched))
  }

  function OptionalNumber(j: Json): Result<Option<real>, DecoderError> {
    Optional(DecodeNumber, j)
  }

  /** The optional counts of `roles`, decoded in order. */
  function DecodeCountsOf(f: map<string, Json>, roles: seq<Role>): (r: Result<map<Role, real>, DecoderError>)
    ensures r.Success? <==>
      forall i :: 0 <= i < |roles| ==> Lookup(f, RoleName(roles[i])) == Undefined || Lookup(f, RoleName(roles[i])).Num?
    ensures r.Success? ==> forall role :: role in r.value <==> role in roles && Lookup(f, RoleName(role)).Num?
    ensures r.Success? ==> forall role :: role in r.value ==> Lookup(f, RoleName(role)) == Num(r.value[role])
  {
    if roles == [] then Success(map[])
    else
      var n :- Field(f, RoleName(roles[0]), OptionalNumber);
      var rest :- DecodeCountsOf(f, roles[1..]);
      assert forall role :: role in roles <==> role == roles[0] || role in roles[1..];
      Success(if n.Some? then rest[roles[0] := n.value] else rest)
  }

  /** `reviewConfigDecover`: an object holding an optional count per association. */
  function DecodeCounts(j: Json): (r: Result<map<Role, real>, DecoderError>)
    ensures r.Success? ==> DescribesCounts(j, r.value)
    ensures r.Failure? ==> forall m :: !DescribesCounts(j, m)
  {
    if !j.Obj? then Failure(DecoderError([], ExpectedObject))
    else
      var r := DecodeCountsOf(j.fields, Roles);
      assert forall role :: role in Roles by {
        forall role { RolesComplete(role); }
      }
      r
  }

  /** `array(string())` */
  function DecodeStrings(j: Json): (r: Result<seq<string>, DecoderError>)
    ensures r.Success? ==> DescribesStrings(j, r.value)
    ensures r.Failure? ==> forall ss :: !DescribesStrings(j, ss)
  {
    DecodeArray(DecodeString, j)
  }

  /** `optional(string())` */
  function DecodeOptString(j: Json): (r: Result<Option<string>, DecoderError>)
    ensures r.Success? ==> DescribesOptString(j, r.value)
    ensures r.Failure? ==> forall o :: !DescribesOptString(j, o)
  {
    Optional(DecodeString, j)
  }

  /** `array(patternDecoder)` */
  function DecodePatterns<P(!new)>(pd: Decoder<P>, j: Json): (r: Result<seq<P>, DecoderError>)
    ensures r.Success? ==> DescribesPatterns(pd, j, r.value)
    ensures r.Failure? ==> forall ps :: !DescribesPatterns(pd, j, ps)
  {
    DecodeArray(pd, j)
  }

  /** The review keys, in the order both condition decoders list them. */
  function DecodeReviews(f: map<string, Json>): (r: Result<(map<Role, real>, seq<string>, map<Role, real>), DecoderError>)
    ensures r.Success? ==> DescribesReviews(f, r.value.0, r.value.1, r.value.2)
    ensures r.Failure? ==> forall a, b, c :: !DescribesReviews(f, a, b, c)
  {
    var minApprovals :- Field(f, "minApprovals", DecodeCounts);
    var requiredReviewers :- Field(f, "requiredReviewers", DecodeStrings);
    var maxRequestedChanges :- Field(f, "maxRequestedChanges", DecodeCounts);
    Success((minApprovals, requiredReviewers, maxRequestedChanges))
  }

  /** The label keys, in the order both condition decoders list them. */
  function DecodeLabels<P(!new)>(pd: Decoder<P>, f: map<string, Json>): (r: Result<(seq<P>, seq<P>, seq<string>, seq<string>), DecoderError>)
    ensures r.Success? ==> DescribesLabels(pd, f, r.value.0, r.value.1, r.value.2, r.value.3)
    ensures r.Failure? ==> forall a, b, c, d :: !DescribesLabels(pd, f, a, b, c, d)
  {
    var requiredLabels :- Field(f, "requiredLabels", v => DecodePatterns(pd, v));
    var blockingLabels :- Field(f, "blockingLabels", v => DecodePatterns(pd, v));
    var requiredLabelsRegex :- Field(f, "requiredLabelsRegex", DecodeStrings);
    var blockingLabelsRegex :- Field(f, "blockingLabelsRegex", DecodeStrings);
    Success((requiredLabels, blockingLabels, requiredLabelsRegex, blockingLabelsRegex))
  }

  /** The title and body keys, in the order both condition decoders list them. */
  function DecodeTexts(f: map<string, Json>): (r: Result<(Option<string>, Option<string>, Option<string>, Option<string>), DecoderError>)
    ensures r.Success? ==> DescribesTexts(f, r.value.0, r.value.1, r.value.2, r.value.3)
    ensures r.Failure? ==> forall a, b, c, d :: !DescribesTexts(f, a, b, c, d)
  {
    var requiredTitleRegex :- Field(f, "requiredTitleRegex", DecodeOptString);
    var blockingTitleRegex :- Field(f, "blockingTitleRegex", DecodeOptString);
    var requiredBodyRegex :- Field(f, "requiredBodyRegex", DecodeOptString);
    var blockingBodyRegex :- Field(f, "blockingBodyRegex", DecodeOptString);
    Success((requiredTitleRegex, blockingTitleRegex, requiredBodyRegex, blockingBodyRegex))
  }

  /** The base-branch keys, in the order both condition decoders list them. */
  function DecodeBranches<P(!new)>(pd: Decoder<P>, f: map<string, Json>): (r: Result<(seq<P>, seq<P>), DecoderError>)
    ensures r.Success? ==> DescribesBranches(pd, f, r.value.0, r.value.1)
    ensures r.Failure? ==> forall a, b :: !DescribesBranches(pd, f, a, b)
  {
    var requiredBaseBranches :- Field(f, "requiredBaseBranches", v => DecodePatterns(pd, v));
    var blockingBaseBranches :- Field(f, "blockingBaseBranches", v => DecodePatterns(pd, v));
    Success((requiredBaseBranches, blockingBaseBranches))
  }

  /**
   * `conditionConfigDecoder`: the settings of one rule, checked key by key
   * in the decoder's order (review, base-branch, label, text keys, then the
   * author role); the first refused key is the one reported.
   */
  function DecodeRuleConfig<P(!new)>(pd: Decoder<P>, j: Json): (r: Result<RuleConfig<P>, DecoderError>)
    ensures r.Success? ==> DescribesRule(pd, j, r.value)
    ensures r.Failure? ==> forall rc :: !DescribesRule(pd, j, rc)
  {
    if !j.Obj? then Failure(DecoderError([], ExpectedObject))
    else
      var f := j.fields;
      var reviews :- DecodeReviews(f);
      var branches :- DecodeBranches(pd, f);
      var labels :- DecodeLabels(pd, f);
      var texts :- DecodeTexts(f);
      var requiredAuthorRole :- Field(f, "requiredAuthorRole", DecodeRole);
      Success(RuleConfig(
        reviews.0, reviews.1, reviews.2,
        labels.0, labels.1, labels.2, labels.3,
        texts.0, texts.1, texts.2, texts.3,
        branches.0, branches.1, requiredAuthorRole))
  }

  /** `array(conditionConfigDecoder)` */
  function DecodeRules<P(!new)>(pd: Decoder<P>, j: Json): (r: Result<seq<RuleConfig<P>>, DecoderError>)
    ensures r.Success? ==> DescribesRules(pd, j, r.value)
    ensures r.Failure? ==> forall rs :: !DescribesRules(pd, j, rs)
  {
    DecodeArray(v => DecodeRuleConfig(pd, v), j)
  }

  /**
   * The condition keys of `configDecoder`, which lists them in an order of
   * its own (review, label, text, base-branch keys, then the author role).
   */
  function DecodeTopLevelConditions<P(!new)>(pd: Decoder<P>, f: map<string, Json>): (r: Result<RuleConfig<P>, DecoderError>)
    ensures r.Success? ==> DescribesRule(pd, Obj(f), r.value)
    ensures r.Failure? ==> forall rc :: !DescribesRule(pd, Obj(f), rc)
  {
    var reviews :- DecodeReviews(f);
    var labels :- DecodeLabels(pd, f);
    var texts :- DecodeTexts(f);
    var branches :- DecodeBranches(pd, f);
    var requiredAuthorRole :- Field(f, "requiredAuthorRole", DecodeRole);
    Success(RuleConfig(
      reviews.0, reviews.1, reviews.2,
      labels.0, labels.1, labels.2, labels.3,
      texts.0, texts.1, texts.2, texts.3,
      branches.0, branches.1, requiredAuthorRole))
  }

  /**
   * `configDecoder`, run by `validateConfig`: the whole configuration,
   * checked key by key in the decoder's order.
   */
  function ValidateConfig<P(!new)>(pd: Decoder<P>, j: Json): (r: Result<Config<P>, DecoderError>)
    ensures r.Success? ==> DescribesConfig(pd, j, r.value)
    ensures r.Failure? ==> forall c :: !DescribesConfig(pd, j, c)
  {
    if !j.Obj? then Failure(DecoderError([], ExpectedObject))
    else
      var f := j.fields;
      var rules :- Field(f, "rules", v => DecodeRules(pd, v));
      var conditions :- DecodeTopLevelConditions(pd, f);
      var updateBranch :- Field(f, "updateBranch", DecodeBool);
      var deleteBranchAfterMerge :- Field(f, "deleteBranchAfterMerge", DecodeBool);
      var reportStatus :- Field(f, "reportStatus", DecodeBool);
      var mergeMethod :- Field(f, "mergeMethod", DecodeMergeMethod);
      var mergeCommitMessage :- Field(f, "mergeCommitMessage", DecodeOptString);
      Success(Config(
        rules, conditions, updateBranch, deleteBranchAfterMerge,
        mergeMethod, mergeCommitMessage, reportStatus))
  }

  // ---------------------------------------------------------------------------
  // Resolution of a user's configuration

  /** The JavaScript `TypeError`s the resolution can raise before validation. */
  datatype ResolutionError =
    | ReadFromNullish      // `userConfig.rules` with `userConfig` null or undefined
    | RulesNotArray(rules: Json)  // `.map` called on a truthy value that is not an array

  /** What `getConfigFromUserConfig` and `loadConfig` raise. */
  datatype ConfigError =
    | ConfigNotFoundError(filePath: string)
    | ConfigValidationError(decoderError: DecoderError, config: Json)
    | TypeError(cause: ResolutionError)

  /** `userConfig.rules` for a user configuration that is not null or undefined. */
  function RulesOf(user: Json): Json {
    if user.Obj? then Lookup(user.fields, "rules") else Undefined
  }

  /** `{...defaultRuleConfig, ...rule}`: the entry's own keys win, every other key is the default. */
  function WithRuleDefaults(rule: Json): (r: Json)
    ensures r.Obj?
    ensures forall k :: k in SpreadFields(rule) ==> Lookup(r.fields, k) == SpreadFields(rule)[k]
    ensures forall k :: k !in SpreadFields(rule) ==> Lookup(r.fields, k) == Lookup(DefaultRuleFields, k)
  {
    Obj(DefaultRuleFields + SpreadFields(rule))
  }

  /** `entries.map(rule => ({...defaultRuleConfig, ...rule}))` */
  function MapWithRuleDefaults(entries: seq<Json>): (r: seq<Json>)
    ensures |r| == |entries|
    ensures forall i :: 0 <= i < |entries| ==> r[i] == WithRuleDefaults(entries[i])
  {
    if |entries| == 0 then []
    else MapWithRuleDefaults(entries[..|entries| - 1]) + [WithRuleDefaults(entries[|entries| - 1])]
  }

  /** `(rules || []).map(...)`: a falsy value gives no rules, a truthy non-array raises. */
  function ResolveRules(rules: Json): (r: Result<seq<Json>, ResolutionError>)
    ensures !Truthy(rules) ==> r == Success([])
    ensures Truthy(rules) && !rules.Arr? ==> r == Failure(RulesNotArray(rules))
    ensures rules.Arr? ==> r.Success? && |r.value| == |rules.elems|
    ensures rules.Arr? ==> forall i :: 0 <= i < |rules.elems| ==> r.value[i] == WithRuleDefaults(rules.elems[i])
  {
    if !Truthy(rules) then Success([])
    else if rules.Arr? then Success(MapWithRuleDefaults(rules.elems))
    else Failure(RulesNotArray(rules))
  }

  /**
   * The record built at the start of `getConfigFromUserConfig`:
   * `{...defaultConfig, ...userConfig, rules: <resolved rules>}`.
   * Every key but `rules` is a shallow override of the default.
   */
  function ResolveUserConfig(user: Json): (r: Result<Json, ResolutionError>)
    ensures user.Undefined? || user.Null? ==> r == Failure(ReadFromNullish)
    ensures !(user.Undefined? || user.Null?) && ResolveRules(RulesOf(user)).Failure? ==>
      r == Failure(ResolveRules(RulesOf(user)).error)
    ensures !(user.Undefined? || user.Null?) && ResolveRules(RulesOf(user)).Success? ==> r.Success?
    ensures r.Success? ==> r.value.Obj?
    ensures r.Success? ==> forall k :: k != "rules" && k in SpreadFields(user) ==>
      Lookup(r.value.fields, k) == SpreadFields(user)[k]
    ensures r.Success? ==> forall k :: k != "rules" && k !in SpreadFields(user) ==>
      Lookup(r.value.fields, k) == Lookup(DefaultConfigFields, k)
    ensures r.Success? ==> ResolveRules(RulesOf(user)).Success?
    ensures r.Success? ==> Lookup(r.value.fields, "rules") == Arr(ResolveRules(RulesOf(user)).value)
  {
    if user.Undefined? || user.Null? then Failure(ReadFromNullish)
    else
      var rules :- ResolveRules(RulesOf(user));
      Success(Obj(DefaultConfigFields + SpreadFields(user) + map["rules" := Arr(rules)]))
  }

  /**
   * `getConfigFromUserConfig`: resolve, then validate; a refused record is
   * reported together with the decoder's error.
   */
  function GetConfigFromUserConfig<P(!new)>(pd: Decoder<P>, user: Json): (r: Result<Config<P>, ConfigError>)
    ensures ResolveUserConfig(user).Failure? ==> r == Failure(TypeError(ResolveUserConfig(user).error))
    ensures r.Success? ==> ResolveUserConfig(user).Success?
    ensures r.Success? ==> DescribesConfig(pd, ResolveUserConfig(user).value, r.value)
    ensures r.Failure? && ResolveUserConfig(user).Success? ==>
      var merged := ResolveUserConfig(user).value;
      && ValidateConfig(pd, merged).Failure?
      && r.error == ConfigValidationError(ValidateConfig(pd, merged).error, merged)
      && forall c :: !DescribesConfig(pd, merged, c)
    ensures r.Failure? ==> !r.error.ConfigNotFoundError?
  {
    var resolved := ResolveUserConfig(user);
    if resolved.Failure? then Failure(TypeError(resolved.error))
    else
      var merged := resolved.value;
      var decoded := ValidateConfig(pd, merged);
      if decoded.Failure? then Failure(ConfigValidationError(decoded.error, merged))
      else Success(decoded.value)
  }

  /** Where the bot looks for a repository's configuration. */
  const ConfigPath: string := ".github/auto-merge.yml"

  /**
   * The decision in `loadConfig`, given the value the configuration fetch
   * produced: nothing (a falsy value) is an error, never a fall-back to the
   * defaults.
   */
  function LoadConfig<P(!new)>(pd: Decoder<P>, fetched: Json): (r: Result<Config<P>, ConfigError>)
    ensures r == Failure(ConfigNotFoundError(ConfigPath)) <==> !Truthy(fetched)
    ensures Truthy(fetched) ==> r == GetConfigFromUserConfig(pd, fetched)
  {
    if !Truthy(fetched) then Failure(ConfigNotFoundError(ConfigPath))
    else GetConfigFromUserConfig(pd, fetched)
  }
}
