/**
 * Properties of configuration resolution: validation accepts exactly the
 * records that describe a configuration, the defaults resolve to the default
 * configuration, user keys override defaults shallowly, and explicit rules
 * are filled from the default rule alone.
 */
module ConfigProperties {
  import opened Wrappers
  import opened JsonValues
  import opened Decoders
  import opened Config

  // ---------------------------------------------------------------------------
  // A record describes at most one configuration

  lemma {:induction false} CountsDetermined(j: Json, m1: map<Role, real>, m2: map<Role, real>)
    requires DescribesCounts(j, m1) && DescribesCounts(j, m2)
    ensures m1 == m2
  {
    forall r: Role ensures (r in m1 <==> r in m2) && (r in m1 ==> m1[r] == m2[r]) {
      var v := Lookup(j.fields, RoleName(r));
      assert v == (if r in m1 then Num(m1[r]) else Undefined);
      assert v == (if r in m2 then Num(m2[r]) else Undefined);
    }
    assert m1.Keys == m2.Keys;
  }

  lemma {:induction false} PatternsDetermined<P>(pd: Decoder<P>, j: Json, ps1: seq<P>, ps2: seq<P>)
    requires DescribesPatterns(pd, j, ps1) && DescribesPatterns(pd, j, ps2)
    ensures ps1 == ps2
  {
    forall i | 0 <= i < |ps1| ensures ps1[i] == ps2[i] {
      assert pd(j.elems[i]) == Success(ps1[i]) == Success(ps2[i]);
    }
  }

  lemma {:induction false} RuleDetermined<P>(pd: Decoder<P>, j: Json, rc1: RuleConfig<P>, rc2: RuleConfig<P>)
    requires DescribesRule(pd, j, rc1) && DescribesRule(pd, j, rc2)
    ensures rc1 == rc2
  {
    var f := j.fields;
    CountsDetermined(Lookup(f, "minApprovals"), rc1.minApprovals, rc2.minApprovals);
    CountsDetermined(Lookup(f, "maxRequestedChanges"), rc1.maxRequestedChanges, rc2.maxRequestedChanges);
    PatternsDetermined(pd, Lookup(f, "requiredLabels"), rc1.requiredLabels, rc2.requiredLabels);
    PatternsDetermined(pd, Lookup(f, "blockingLabels"), rc1.blockingLabels, rc2.blockingLabels);
    PatternsDetermined(pd, Lookup(f, "requiredBaseBranches"), rc1.requiredBaseBranches, rc2.requiredBaseBranches);
    PatternsDetermined(pd, Lookup(f, "blockingBaseBranches"), rc1.blockingBaseBranches, rc2.blockingBaseBranches);
  }

  lemma {:induction false} RulesDetermined<P>(pd: Decoder<P>, j: Json, rs1: seq<RuleConfig<P>>, rs2: seq<RuleConfig<P>>)
    requires DescribesRules(pd, j, rs1) && DescribesRules(pd, j, rs2)
    ensures rs1 == rs2
  {
    forall i | 0 <= i < |rs1| ensures rs1[i] == rs2[i] {
      RuleDetermined(pd, j.elems[i], rs1[i], rs2[i]);
    }
  }

  /** Two configurations described by the same record are the same configuration. */
  lemma {:induction false} ConfigDetermined<P>(pd: Decoder<P>, j: Json, c1: Config<P>, c2: Config<P>)
    requires DescribesConfig(pd, j, c1) && DescribesConfig(pd, j, c2)
    ensures c1 == c2
  {
    RuleDetermined(pd, j, c1.conditions, c2.conditions);
    RulesDetermined(pd, Lookup(j.fields, "rules"), c1.rules, c2.rules);
  }

  // ---------------------------------------------------------------------------
  // The decoders accept exactly what the records describe

  /** `conditionConfigDecoder` yields `rc` exactly when the record describes `rc`. */
  lemma {:induction false} RuleDecoderExact<P(!new)>(pd: Decoder<P>, j: Json, rc: RuleConfig<P>)
    ensures DecodeRuleConfig(pd, j) == Success(rc) <==> DescribesRule(pd, j, rc)
  {
    if DescribesRule(pd, j, rc) {
      RuleDetermined(pd, j, rc, DecodeRuleConfig(pd, j).value);
    }
  }

  /** `validateConfig` yields `c` exactly when the record describes `c`. */
  lemma {:induction false} ValidateConfigExact<P(!new)>(pd: Decoder<P>, j: Json, c: Config<P>)
    ensures ValidateConfig(pd, j) == Success(c) <==> DescribesConfig(pd, j, c)
  {
    if DescribesConfig(pd, j, c) {
      ConfigDetermined(pd, j, c, ValidateConfig(pd, j).value);
    }
  }

  // ---------------------------------------------------------------------------
  // Defaults

  /** The list and count settings of `defaultRuleConfig`. */
  predicate DefaultListSettings(f: map<string, Json>) {
    && Lookup(f, "minApprovals") == Obj(map[])
    && Lookup(f, "requiredReviewers") == Arr([])
    && Lookup(f, "maxRequestedChanges") == Obj(map["NONE" := Num(0.0)])
    && Lookup(f, "requiredLabels") == Arr([])
    && Lookup(f, "blockingLabels") == Arr([])
    && Lookup(f, "requiredLabelsRegex") == Arr([])
    && Lookup(f, "blockingLabelsRegex") == Arr([])
  }

  /** The text, branch and role settings of `defaultRuleConfig`. */
  predicate DefaultTextSettings(f: map<string, Json>) {
    && Lookup(f, "requiredTitleRegex") == Undefined
    && Lookup(f, "blockingTitleRegex") == Undefined
    && Lookup(f, "requiredBodyRegex") == Undefined
    && Lookup(f, "blockingBodyRegex") == Undefined
    && Lookup(f, "requiredBaseBranches") == Arr([])
    && Lookup(f, "blockingBaseBranches") == Arr([])
    && Lookup(f, "requiredAuthorRole") == Str("NONE")
  }

  /** The merge settings of `defaultConfig`, which sets no merge commit message. */
  predicate DefaultMergeSettings(f: map<string, Json>) {
    && Lookup(f, "updateBranch") == Bool(false)
    && Lookup(f, "deleteBranchAfterMerge") == Bool(false)
    && Lookup(f, "reportStatus") == Bool(false)
    && Lookup(f, "mergeMethod") == Str("merge")
    && Lookup(f, "mergeCommitMessage") == Undefined
  }

  /** Every default setting, and no explicit rules. */
  predicate AllDefaultSettings(f: map<string, Json>) {
    && Lookup(f, "rules") == Arr([])
    && DefaultListSettings(f)
    && DefaultTextSettings(f)
    && DefaultMergeSettings(f)
  }

  lemma DefaultRuleListSettings()
    ensures DefaultListSettings(DefaultRuleFields)
  {
  }

  lemma DefaultRuleTextSettings()
    ensures DefaultTextSettings(DefaultRuleFields)
  {
  }

  /** `...defaultRuleConfig` comes last in `defaultConfig`, so its settings are kept. */
  lemma DefaultConfigHasRuleFields()
    ensures forall k :: k in DefaultRuleFields ==> k in DefaultConfigFields && DefaultConfigFields[k] == DefaultRuleFields[k]
  {
  }

  lemma DefaultConfigListSettings()
    ensures DefaultListSettings(DefaultConfigFields)
  {
    DefaultRuleListSettings();
    DefaultConfigHasRuleFields();
  }

  lemma DefaultConfigTextSettings()
    ensures DefaultTextSettings(DefaultConfigFields)
  {
    DefaultRuleTextSettings();
    DefaultConfigHasRuleFields();
    assert "requiredTitleRegex" in DefaultRuleFields;
    assert "blockingTitleRegex" in DefaultRuleFields;
    assert "requiredBodyRegex" in DefaultRuleFields;
    assert "blockingBodyRegex" in DefaultRuleFields;
  }

  lemma DefaultConfigUpdateBranch()
    ensures Lookup(DefaultConfigFields, "updateBranch") == Bool(false)
  {
  }

  lemma DefaultConfigDeleteBranch()
    ensures Lookup(DefaultConfigFields, "deleteBranchAfterMerge") == Bool(false)
  {
  }

  lemma DefaultConfigReportStatus()
    ensures Lookup(DefaultConfigFields, "reportStatus") == Bool(false)
  {
  }

  lemma DefaultConfigMergeMethod()
    ensures Lookup(DefaultConfigFields, "mergeMethod") == Str("merge")
    ensures Lookup(DefaultConfigFields, "mergeCommitMessage") == Undefined
  {
  }

  lemma DefaultConfigMergeSettings()
    ensures DefaultMergeSettings(DefaultConfigFields)
  {
    DefaultConfigUpdateBranch();
    DefaultConfigDeleteBranch();
    DefaultConfigReportStatus();
    DefaultConfigMergeMethod();
  }

  /** Default settings carry over to a record that agrees on every key but `rules`. */
  lemma DefaultSettingsCarryOver(f: map<string, Json>, g: map<string, Json>)
    requires forall k :: k != "rules" && |k| > 0 && 'a' <= k[0] <= 'z' ==> Lookup(f, k) == Lookup(g, k)
    requires DefaultListSettings(g) && DefaultTextSettings(g) && DefaultMergeSettings(g)
    ensures DefaultListSettings(f) && DefaultTextSettings(f) && DefaultMergeSettings(f)
  {
  }

  /** A record holding every default setting describes the typed default configuration. */
  lemma DefaultConfigDescribed<P>(pd: Decoder<P>, j: Json)
    requires j.Obj? && AllDefaultSettings(j.fields)
    ensures DescribesConfig(pd, j, DefaultConfig())
  {
    DefaultRuleDescribed(pd, j);
  }

  /** A record holding the default rule's settings describes the typed default rule. */
  lemma DefaultRuleDescribed<P>(pd: Decoder<P>, j: Json)
    requires j.Obj? && DefaultListSettings(j.fields) && DefaultTextSettings(j.fields)
    ensures DescribesRule(pd, j, DefaultRuleConfig())
  {
    assert DescribesCounts(Lookup(j.fields, "maxRequestedChanges"), map[NoAssociation := 0.0]);
  }

  /** The default rule literal is valid and means: at most 0 changes requested by authors without association, every other setting empty, required author role NONE. */
  lemma DefaultRuleLiteralDecodes<P(!new)>(pd: Decoder<P>)
    ensures DecodeRuleConfig(pd, Obj(DefaultRuleFields)) == Success(DefaultRuleConfig())
  {
    var j := Obj(DefaultRuleFields);
    DefaultRuleListSettings();
    DefaultRuleTextSettings();
    DefaultRuleDescribed(pd, j);
    RuleDecoderExact(pd, j, DefaultRuleConfig());
  }

  /**
   * A user configuration that sets no key (an empty record, or a truthy
   * scalar such as `true`, which spreads into nothing) resolves to exactly
   * the default configuration.
   */
  lemma EmptyUserConfigYieldsDefaults<P(!new)>(pd: Decoder<P>, user: Json)
    requires !(user.Undefined? || user.Null?)
    requires SpreadFields(user) == map[]
    ensures GetConfigFromUserConfig(pd, user) == Success(DefaultConfig())
  {
    IndexKeysYieldDefaults(pd, user);
  }

  /**
   * A user configuration that is a list, a string, a boolean or a number
   * (whatever it spreads, it spreads only index keys) resolves to exactly
   * the default configuration: it can override no setting.
   */
  lemma NonObjectUserConfigYieldsDefaults<P(!new)>(pd: Decoder<P>, user: Json)
    requires !(user.Undefined? || user.Null?) && !user.Obj?
    ensures GetConfigFromUserConfig(pd, user) == Success(DefaultConfig())
  {
    IndexKeysYieldDefaults(pd, user);
  }

  /** A user configuration whose own keys are all index keys yields the default configuration. */
  lemma IndexKeysYieldDefaults<P(!new)>(pd: Decoder<P>, user: Json)
    requires !(user.Undefined? || user.Null?)
    requires forall k :: k in SpreadFields(user) ==> IsIndexKey(k)
    ensures GetConfigFromUserConfig(pd, user) == Success(DefaultConfig())
  {
    IndexKeysResolveToDefaults(user);
    var merged := ResolveUserConfig(user).value;
    DefaultConfigDescribed(pd, merged);
    ValidateConfigExact(pd, merged, DefaultConfig());
  }

  /** A user configuration whose own keys are all index keys resolves to a record holding every default and no rules. */
  lemma IndexKeysResolveToDefaults(user: Json)
    requires !(user.Undefined? || user.Null?)
    requires forall k :: k in SpreadFields(user) ==> IsIndexKey(k)
    ensures ResolveUserConfig(user).Success?
    ensures AllDefaultSettings(ResolveUserConfig(user).value.fields)
  {
    NamedKeyIsNoIndex("rules");
    assert RulesOf(user) == Undefined;
    var merged := ResolveUserConfig(user).value;
    forall k | k != "rules" && |k| > 0 && 'a' <= k[0] <= 'z'
      ensures Lookup(merged.fields, k) == Lookup(DefaultConfigFields, k)
    {
      NamedKeyIsNoIndex(k);
    }
    DefaultConfigListSettings();
    DefaultConfigTextSettings();
    DefaultConfigMergeSettings();
    DefaultSettingsCarryOver(merged.fields, DefaultConfigFields);
  }

  /** An explicit rule entry with no keys of its own resolves to the default rule. */
  lemma EmptyRuleEntryYieldsDefaultRule<P(!new)>(pd: Decoder<P>, entry: Json)
    requires SpreadFields(entry) == map[]
    ensures DecodeRuleConfig(pd, WithRuleDefaults(entry)) == Success(DefaultRuleConfig())
  {
    assert WithRuleDefaults(entry) == Obj(DefaultRuleFields);
    DefaultRuleLiteralDecodes(pd);
  }

  // ---------------------------------------------------------------------------
  // Shallow override and per-rule defaults

  /** Two records that hold the same value under every condition key. */
  predicate SameRuleSettings(f: map<string, Json>, g: map<string, Json>) {
    && Lookup(f, "minApprovals") == Lookup(g, "minApprovals")
    && Lookup(f, "requiredReviewers") == Lookup(g, "requiredReviewers")
    && Lookup(f, "maxRequestedChanges") == Lookup(g, "maxRequestedChanges")
    && Lookup(f, "requiredLabels") == Lookup(g, "requiredLabels")
    && Lookup(f, "blockingLabels") == Lookup(g, "blockingLabels")
    && Lookup(f, "requiredLabelsRegex") == Lookup(g, "requiredLabelsRegex")
    && Lookup(f, "blockingLabelsRegex") == Lookup(g, "blockingLabelsRegex")
    && Lookup(f, "requiredTitleRegex") == Lookup(g, "requiredTitleRegex")
    && Lookup(f, "blockingTitleRegex") == Lookup(g, "blockingTitleRegex")
    && Lookup(f, "requiredBodyRegex") == Lookup(g, "requiredBodyRegex")
    && Lookup(f, "blockingBodyRegex") == Lookup(g, "blockingBodyRegex")
    && Lookup(f, "requiredBaseBranches") == Lookup(g, "requiredBaseBranches")
    && Lookup(f, "blockingBaseBranches") == Lookup(g, "blockingBaseBranches")
    && Lookup(f, "requiredAuthorRole") == Lookup(g, "requiredAuthorRole")
  }

  /** `defaultConfig` and `defaultRuleConfig` agree on every condition key. */
  lemma DefaultsAgreeOnRuleSettings()
    ensures SameRuleSettings(DefaultConfigFields, DefaultRuleFields)
  {
    DefaultRuleListSettings();
    DefaultRuleTextSettings();
    DefaultConfigListSettings();
    DefaultConfigTextSettings();
  }

  /**
   * Laying the same keys over two bases that agree on every condition key
   * gives two records that still agree on every condition key.
   */
  lemma OverridesAgreeOnRuleSettings(f: map<string, Json>, g: map<string, Json>, top: map<string, Json>, over: map<string, Json>)
    requires forall k :: k != "rules" && k in over ==> Lookup(f, k) == over[k]
    requires forall k :: k != "rules" && k !in over ==> Lookup(f, k) == Lookup(top, k)
    requires forall k :: k in over ==> Lookup(g, k) == over[k]
    requires forall k :: k !in over ==> Lookup(g, k) == Lookup(DefaultRuleFields, k)
    requires SameRuleSettings(top, DefaultRuleFields)
    ensures SameRuleSettings(f, g)
  {
  }

  /** A rule description reads only the condition keys. */
  lemma RuleDescriptionTransfers<P>(pd: Decoder<P>, f: map<string, Json>, g: map<string, Json>, rc: RuleConfig<P>)
    requires SameRuleSettings(f, g)
    requires DescribesRule(pd, Obj(f), rc)
    ensures DescribesRule(pd, Obj(g), rc)
  {
  }

  /**
   * The top-level condition settings resolve exactly as an explicit rule
   * entry holding the user's keys would: each key the user gives replaces
   * the default wholesale, every other key keeps the default rule's value.
   */
  lemma TopLevelConditionsAreShallowOverride<P(!new)>(pd: Decoder<P>, user: Json, c: Config<P>)
    requires GetConfigFromUserConfig(pd, user) == Success(c)
    ensures DecodeRuleConfig(pd, WithRuleDefaults(user)) == Success(c.conditions)
  {
    var merged := ResolveUserConfig(user).value;
    var asRule := WithRuleDefaults(user);
    DefaultsAgreeOnRuleSettings();
    OverridesAgreeOnRuleSettings(merged.fields, asRule.fields, DefaultConfigFields, SpreadFields(user));
    RuleDescriptionTransfers(pd, merged.fields, asRule.fields, c.conditions);
    RuleDecoderExact(pd, asRule, c.conditions);
  }

  /** A counts record without a `NONE` key gives no count for authors without association. */
  lemma CountsWithoutNone(j: Json, m: map<Role, real>)
    requires DescribesCounts(j, m)
    requires "NONE" !in j.fields
    ensures NoAssociation !in m
  {
    assert Lookup(j.fields, RoleName(NoAssociation)) == Undefined;
  }

  /**
   * A user's `maxRequestedChanges` replaces the default `{NONE: 0}` as a
   * whole: the resolved counts are the user's, and a user record without
   * `NONE` leaves authors without association unconstrained.
   */
  lemma UserCountsReplaceDefaultCounts<P(!new)>(pd: Decoder<P>, user: Json, c: Config<P>)
    requires GetConfigFromUserConfig(pd, user) == Success(c)
    requires user.Obj? && "maxRequestedChanges" in user.fields
    ensures DescribesCounts(user.fields["maxRequestedChanges"], c.conditions.maxRequestedChanges)
    ensures "NONE" !in user.fields["maxRequestedChanges"].fields ==> NoAssociation !in c.conditions.maxRequestedChanges
  {
    var merged := ResolveUserConfig(user).value;
    var counts := user.fields["maxRequestedChanges"];
    assert SpreadFields(user) == user.fields;
    assert Lookup(merged.fields, "maxRequestedChanges") == counts;
    assert DescribesRule(pd, merged, c.conditions);
    assert DescribesCounts(counts, c.conditions.maxRequestedChanges);
    if "NONE" !in counts.fields {
      CountsWithoutNone(counts, c.conditions.maxRequestedChanges);
    }
  }

  /** The merge method is the user's when given, `merge` otherwise. */
  lemma MergeMethodIsShallowOverride<P(!new)>(pd: Decoder<P>, user: Json, c: Config<P>)
    requires GetConfigFromUserConfig(pd, user) == Success(c)
    ensures "mergeMethod" in SpreadFields(user) ==> SpreadFields(user)["mergeMethod"] == Str(MergeMethodName(c.mergeMethod))
    ensures "mergeMethod" !in SpreadFields(user) ==> c.mergeMethod == Merge
  {
    var f := ResolveUserConfig(user).value.fields;
    assert Lookup(f, "mergeMethod") == Str(MergeMethodName(c.mergeMethod));
    DefaultConfigMergeMethod();
    OnlyMergeIsNamedMerge(c.mergeMethod);
  }

  lemma OnlyMergeIsNamedMerge(m: MergeMethod)
    ensures MergeMethodName(m) == "merge" ==> m == Merge
  {
    if m != Merge {
      assert |MergeMethodName(m)| == 6;
    }
  }

  /** The flags are the user's when given, `false` otherwise. */
  lemma FlagsAreShallowOverride<P(!new)>(pd: Decoder<P>, user: Json, c: Config<P>)
    requires GetConfigFromUserConfig(pd, user) == Success(c)
    ensures "updateBranch" in SpreadFields(user) ==> SpreadFields(user)["updateBranch"] == Bool(c.updateBranch)
    ensures "updateBranch" !in SpreadFields(user) ==> !c.updateBranch
    ensures "deleteBranchAfterMerge" in SpreadFields(user) ==> SpreadFields(user)["deleteBranchAfterMerge"] == Bool(c.deleteBranchAfterMerge)
    ensures "deleteBranchAfterMerge" !in SpreadFields(user) ==> !c.deleteBranchAfterMerge
    ensures "reportStatus" in SpreadFields(user) ==> SpreadFields(user)["reportStatus"] == Bool(c.reportStatus)
    ensures "reportStatus" !in SpreadFields(user) ==> !c.reportStatus
  {
    var f := ResolveUserConfig(user).value.fields;
    assert Lookup(f, "updateBranch") == Bool(c.updateBranch);
    assert Lookup(f, "deleteBranchAfterMerge") == Bool(c.deleteBranchAfterMerge);
    assert Lookup(f, "reportStatus") == Bool(c.reportStatus);
    DefaultConfigUpdateBranch();
    DefaultConfigDeleteBranch();
    DefaultConfigReportStatus();
  }

  /** An absent or falsy `rules` resolves to no explicit rules. */
  lemma FalsyRulesYieldNoRules<P(!new)>(pd: Decoder<P>, user: Json, c: Config<P>)
    requires GetConfigFromUserConfig(pd, user) == Success(c)
    requires !Truthy(RulesOf(user))
    ensures c.rules == []
  {
    var merged := ResolveUserConfig(user).value;
    assert Lookup(merged.fields, "rules") == Arr([]);
  }

  /**
   * The resolved rules follow the user's list entry by entry, in order;
   * each is the entry laid over the default rule.
   */
  lemma RulesFollowUserList<P(!new)>(pd: Decoder<P>, user: Json, c: Config<P>)
    requires GetConfigFromUserConfig(pd, user) == Success(c)
    requires RulesOf(user).Arr?
    ensures |c.rules| == |RulesOf(user).elems|
    ensures forall i :: 0 <= i < |c.rules| ==>
      DecodeRuleConfig(pd, WithRuleDefaults(RulesOf(user).elems[i])) == Success(c.rules[i])
  {
    var merged := ResolveUserConfig(user).value;
    var es := RulesOf(user).elems;
    var resolved := ResolveRules(RulesOf(user)).value;
    assert Lookup(merged.fields, "rules") == Arr(resolved);
    forall i | 0 <= i < |c.rules|
      ensures DecodeRuleConfig(pd, WithRuleDefaults(es[i])) == Success(c.rules[i])
    {
      assert resolved[i] == WithRuleDefaults(es[i]);
      RuleDecoderExact(pd, resolved[i], c.rules[i]);
    }
  }

  /**
   * Explicit rules are filled from the default rule only: two user
   * configurations with the same `rules` resolve to the same rules, whatever
   * their top-level condition settings.
   */
  lemma RulesIgnoreTopLevelSettings<P(!new)>(pd: Decoder<P>, user1: Json, user2: Json, c1: Config<P>, c2: Config<P>)
    requires GetConfigFromUserConfig(pd, user1) == Success(c1)
    requires GetConfigFromUserConfig(pd, user2) == Success(c2)
    requires RulesOf(user1) == RulesOf(user2)
    ensures c1.rules == c2.rules
  {
    var rules := Lookup(ResolveUserConfig(user1).value.fields, "rules");
    assert rules == Lookup(ResolveUserConfig(user2).value.fields, "rules");
    RulesDetermined(pd, rules, c1.rules, c2.rules);
  }

  // ---------------------------------------------------------------------------
  // What validation refuses

  /** A refused resolved record is reported with the decoder's error and the record itself. */
  predicate RefusedWithRecord<P(!new)>(pd: Decoder<P>, user: Json)
    requires ResolveUserConfig(user).Success?
  {
    var merged := ResolveUserConfig(user).value;
    var r := GetConfigFromUserConfig(pd, user);
    && ValidateConfig(pd, merged).Failure?
    && r == Failure(ConfigValidationError(ValidateConfig(pd, merged).error, merged))
  }

  /** A record whose merge method is not merge, rebase or squash does not validate. */
  lemma MergeMethodRefused<P(!new)>(pd: Decoder<P>, j: Json)
    requires j.Obj? && Lookup(j.fields, "mergeMethod") !in {Str("merge"), Str("rebase"), Str("squash")}
    ensures ValidateConfig(pd, j).Failure?
  {
    if ValidateConfig(pd, j).Success? {
      MergeMethodNameListed(ValidateConfig(pd, j).value.mergeMethod);
    }
  }

  lemma MergeMethodNameListed(m: MergeMethod)
    ensures Str(MergeMethodName(m)) in {Str("merge"), Str("rebase"), Str("squash")}
  {
  }

  /** A merge method other than merge, rebase or squash is refused. */
  lemma UnknownMergeMethodRejected<P(!new)>(pd: Decoder<P>, user: Json)
    requires ResolveUserConfig(user).Success?
    requires user.Obj? && "mergeMethod" in user.fields
    requires user.fields["mergeMethod"] !in {Str("merge"), Str("rebase"), Str("squash")}
    ensures RefusedWithRecord(pd, user)
  {
    var merged := ResolveUserConfig(user).value;
    assert Lookup(merged.fields, "mergeMethod") == user.fields["mergeMethod"];
    MergeMethodRefused(pd, merged);
  }

  /** A top-level author role that is not one of the seven associations is refused. */
  lemma UnknownAuthorRoleRejected<P(!new)>(pd: Decoder<P>, user: Json)
    requires ResolveUserConfig(user).Success?
    requires user.Obj? && "requiredAuthorRole" in user.fields
    requires forall r: Role :: user.fields["requiredAuthorRole"] != Str(RoleName(r))
    ensures RefusedWithRecord(pd, user)
  {
    var merged := ResolveUserConfig(user).value;
    assert Lookup(merged.fields, "requiredAuthorRole") == user.fields["requiredAuthorRole"];
    if ValidateConfig(pd, merged).Success? {
      assert false;
    }
  }

  /** An explicit rule whose author role is not one of the seven associations is refused. */
  lemma UnknownRuleAuthorRoleRejected<P(!new)>(pd: Decoder<P>, user: Json, i: nat)
    requires ResolveUserConfig(user).Success?
    requires RulesOf(user).Arr? && i < |RulesOf(user).elems|
    requires RulesOf(user).elems[i].Obj? && "requiredAuthorRole" in RulesOf(user).elems[i].fields
    requires forall r: Role :: RulesOf(user).elems[i].fields["requiredAuthorRole"] != Str(RoleName(r))
    ensures RefusedWithRecord(pd, user)
  {
    var merged := ResolveUserConfig(user).value;
    var entry := RulesOf(user).elems[i];
    var resolved := ResolveRules(RulesOf(user)).value;
    assert resolved[i] == WithRuleDefaults(entry);
    assert Lookup(resolved[i].fields, "requiredAuthorRole") == entry.fields["requiredAuthorRole"];
  }

  /** A flag the user sets to something other than a boolean is refused. */
  lemma NonBooleanFlagRejected<P(!new)>(pd: Decoder<P>, user: Json, flag: string)
    requires ResolveUserConfig(user).Success?
    requires flag in {"updateBranch", "deleteBranchAfterMerge", "reportStatus"}
    requires user.Obj? && flag in user.fields && !user.fields[flag].Bool?
    ensures RefusedWithRecord(pd, user)
  {
    var merged := ResolveUserConfig(user).value;
    assert Lookup(merged.fields, flag) == user.fields[flag];
  }

  /** The condition keys `configDecoder` requires: every one but the four text regexes. */
  const RequiredRuleKeys: set<string> := {
    "minApprovals", "requiredReviewers", "maxRequestedChanges",
    "requiredLabels", "blockingLabels", "requiredLabelsRegex", "blockingLabelsRegex",
    "requiredBaseBranches", "blockingBaseBranches", "requiredAuthorRole"
  }

  /** The settings keys `configDecoder` requires: all but the merge commit message. */
  const RequiredSettingKeys: set<string> := {
    "rules", "updateBranch", "deleteBranchAfterMerge", "reportStatus", "mergeMethod"
  }

  lemma RequiredRuleKeyPresent<P>(pd: Decoder<P>, j: Json, rc: RuleConfig<P>, key: string)
    requires DescribesRule(pd, j, rc) && key in RequiredRuleKeys
    ensures key in j.fields
  {
    assert Lookup(j.fields, key) != Undefined;
  }

  lemma RequiredSettingKeyPresent<P>(pd: Decoder<P>, j: Json, c: Config<P>, key: string)
    requires DescribesConfig(pd, j, c) && key in RequiredSettingKeys
    ensures key in j.fields
  {
    assert Lookup(j.fields, key) != Undefined;
  }

  /** A record missing a required key does not validate. */
  lemma MissingRequiredKeyRejected<P(!new)>(pd: Decoder<P>, j: Json, key: string)
    requires j.Obj? && key in RequiredRuleKeys + RequiredSettingKeys && key !in j.fields
    ensures ValidateConfig(pd, j).Failure?
  {
    if ValidateConfig(pd, j).Success? {
      var c := ValidateConfig(pd, j).value;
      if key in RequiredRuleKeys {
        RequiredRuleKeyPresent(pd, j, c.conditions, key);
      } else {
        RequiredSettingKeyPresent(pd, j, c, key);
      }
    }
  }
}
