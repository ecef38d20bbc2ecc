# Merge-bot configuration and condition catalog

This project models two pure parts of a pull-request auto-merge bot.

- **Configuration resolution** (`src/config.ts`). A user's `auto-merge.yml` is an untyped document. It is shallow-merged over the built-in `defaultConfig`. Each entry of its `rules` list is shallow-merged over `defaultRuleConfig`. The merged record then goes through the `configDecoder` validator, which yields a typed `Config` or a `ConfigValidationError` carrying the decoder's error and the merged record. A missing file gives `ConfigNotFoundError('.github/auto-merge.yml')`.
- **The condition catalog** (`src/conditions/index.ts`). This is the closed set of seventeen named merge conditions, the list `conditionNames` in catalog order, and `ConditionResults`, which holds one result per condition.

The modules are:

- `Wrappers`: `Option` and `Result`.
- `JsonValues`: the untyped document, plus the JavaScript semantics the code relies on:
  - a missing key reads as `undefined`;
  - truthiness, for `rules || []`;
  - object spread, for `{...a, ...b}`. An object spreads exactly its fields, an array or string contributes only index keys, and `null`, `undefined`, booleans and numbers spread nothing.
- `Decoders`: the primitive decoders of the JSON validation library the configuration uses (`string`, `number`, `boolean`, `optional`, `array`, a field of `object`), with error paths.
- `Config`: the configuration model, described below.
- `ConfigProperties`: the lemmas about the configuration.
- `Conditions`: the catalog.

The `Config` module holds:

- the typed records and the default documents;
- the role and merge-method decoders, the counts decoder, the condition-config decoder and the full `configDecoder`;
- the merge done by `getConfigFromUserConfig`, and the not-found branch of `loadConfig`.

The primitive decoders and `Config.DecodeCountsOf`, the key-by-key step of the count decoder, are specified directly: when they succeed and what they return. Every decoder of `Config` from the role decoder up is specified against an independent predicate, `Describes…`, that says when a typed value is what a document says. Success yields a value the document describes. Failure means no value is described. `Describes…` is functional, so each decoder is exact (`ConfigProperties.ValidateConfigExact`).

`Pattern` and `patternDecoder` come from `src/pattern.ts`. The model takes them as a type parameter `P` and a decoder parameter `pd`. Every result holds for any pattern decoder.

## Model

| member | source | states |
|---|---|---|
| JsonValues.SpreadFields | src/config.ts:153-159 | Spreading an object contributes exactly its fields. Anything else contributes only index keys. `null`, `undefined`, booleans and numbers contribute nothing |
| JsonValues.NamedKeyIsNoIndex | src/config.ts:153-159 | A property name starting with a lowercase letter (every setting's name) is never an index key |
| Decoders.DecodeString | src/config.ts:106 | `string()` succeeds exactly on strings and returns the string |
| Decoders.DecodeNumber | src/config.ts:95-101 | `number()` succeeds exactly on numbers and returns the number |
| Decoders.DecodeBool | src/config.ts:137-139 | `boolean()` succeeds exactly on booleans and returns the boolean |
| Decoders.Optional | src/config.ts:114-117 | `optional(d)` maps `undefined` to no value; otherwise it succeeds exactly when `d` does, with `d`'s value |
| Decoders.DecodeElems | src/config.ts:106 | Decoding succeeds exactly when every element decodes. On success the output has the same length and holds each element's value in order |
| Decoders.DecodeArray | src/config.ts:106 | `array(d)` refuses non-arrays; on arrays it behaves as the element-wise decoding |
| Decoders.Field | src/config.ts:104-119 | A field of `object({...})` succeeds exactly when its decoder accepts the value read at the key. An absent key whose decoder refuses `undefined` is reported as missing. Other errors are prefixed with the key |
| Config.RolesComplete | src/config.ts:84-92 | All seven comment-author associations are alternatives of the role decoder |
| Config.DecodeRole | src/config.ts:84-92 | The role decoder accepts exactly the seven association names and returns the one named |
| Config.DecodeMergeMethod | src/config.ts:140-144 | The merge-method decoder accepts exactly `merge`, `rebase` and `squash` |
| Config.DecodeCountsOf | src/config.ts:94-102 | Each association key is either absent or a number. The map holds exactly the roles given as numbers, with their values |
| Config.DecodeCounts | src/config.ts:94-102 | The per-role count decoder succeeds exactly when the document is an object whose seven association keys are absent or numbers, and returns those numbers |
| Config.DecodeStrings | src/config.ts:106 | `array(string())` succeeds exactly on arrays of strings |
| Config.DecodeOptString | src/config.ts:114-117 | `optional(string())` succeeds exactly on `undefined` or a string |
| Config.DecodePatterns | src/config.ts:108-111 | `array(patternDecoder)` succeeds exactly when every element is accepted by the pattern decoder, and returns the patterns |
| Config.DecodeReviews | src/config.ts:105-107 | The review keys decode exactly when they hold per-role counts and a list of reviewer names, and give those values |
| Config.DecodeLabels | src/config.ts:110-113 | The label keys decode exactly when they hold pattern lists and string lists, and give those values |
| Config.DecodeTexts | src/config.ts:114-117 | The four title/body regex keys decode exactly when each is absent or a string |
| Config.DecodeBranches | src/config.ts:108-109 | The base-branch keys decode exactly when they hold pattern lists |
| Config.DecodeRuleConfig | src/config.ts:104-119 | The condition-config decoder succeeds exactly when the document describes a condition config, and returns that config |
| Config.DecodeRules | src/config.ts:122 | The `rules` decoder succeeds exactly on an array whose entries all decode as condition configs |
| Config.DecodeTopLevelConditions | src/config.ts:123-136 | The top-level condition keys, in `configDecoder`'s own order, decode exactly when the record describes a condition config, and give that config |
| Config.ValidateConfig | src/config.ts:121-150 | `validateConfig` succeeds exactly when the document describes a configuration. On failure no configuration is described by it |
| Config.WithRuleDefaults | src/config.ts:156-159 | A rule entry is `defaultRuleConfig` shallow-overridden key by key by the entry's own keys |
| Config.MapWithRuleDefaults | src/config.ts:156 | `.map` keeps the length and fills each entry with the rule defaults |
| Config.ResolveRules | src/config.ts:156 | A falsy `rules` gives no entries. A truthy non-array raises a TypeError. An array gives its entries, each filled with the rule defaults |
| Config.ResolveUserConfig | src/config.ts:153-160 | A nullish user config raises a TypeError, and so does a `rules` that cannot be mapped. Otherwise resolution succeeds: every key other than `rules` is the user's value if present, else the default, and `rules` is the resolved list |
| Config.GetConfigFromUserConfig | src/config.ts:152-166 | A resolution fault is raised as a TypeError. Success returns the configuration the merged record describes. A failed validation is a `ConfigValidationError` carrying the decoder's error and the merged record, and no configuration describes that record. Never a not-found error |
| Config.LoadConfig | src/config.ts:168-174 | Not-found with `.github/auto-merge.yml` exactly when the fetched config is falsy; otherwise the result of `getConfigFromUserConfig` |
| ConfigProperties.CountsDetermined | src/config.ts:94-102 | A document describes at most one per-role count map |
| ConfigProperties.PatternsDetermined | src/config.ts:108-111 | A document describes at most one pattern list |
| ConfigProperties.RuleDetermined | src/config.ts:104-119 | A document describes at most one condition config |
| ConfigProperties.RulesDetermined | src/config.ts:122 | A document describes at most one rule list |
| ConfigProperties.ConfigDetermined | src/config.ts:121-146 | A document describes at most one configuration |
| ConfigProperties.RuleDecoderExact | src/config.ts:104-119 | The condition-config decoder returns `rc` if and only if the document describes `rc` |
| ConfigProperties.ValidateConfigExact | src/config.ts:148-150 | `validateConfig` returns `c` if and only if the document describes `c` |
| ConfigProperties.DefaultRuleListSettings | src/config.ts:56-65 | `defaultRuleConfig` sets `minApprovals` to `{}`, `maxRequestedChanges` to `{NONE: 0}` and the reviewer, label and label-regex lists to `[]` |
| ConfigProperties.DefaultRuleTextSettings | src/config.ts:66-72 | `defaultRuleConfig` leaves the four title/body regexes `undefined`, sets both branch lists to `[]` and the author role to `NONE` |
| ConfigProperties.DefaultConfigHasRuleFields | src/config.ts:75-82 | `defaultConfig` contains every setting of `defaultRuleConfig` unchanged |
| ConfigProperties.DefaultConfigListSettings | src/config.ts:75-82 | `defaultConfig` carries the rule defaults' count and list settings |
| ConfigProperties.DefaultConfigTextSettings | src/config.ts:75-82 | `defaultConfig` carries the rule defaults' regex, branch and author-role settings |
| ConfigProperties.DefaultConfigUpdateBranch | src/config.ts:77 | `updateBranch` defaults to false |
| ConfigProperties.DefaultConfigDeleteBranch | src/config.ts:78 | `deleteBranchAfterMerge` defaults to false |
| ConfigProperties.DefaultConfigReportStatus | src/config.ts:80 | `reportStatus` defaults to false |
| ConfigProperties.DefaultConfigMergeMethod | src/config.ts:79 | `mergeMethod` defaults to `merge`; no merge commit message is set |
| ConfigProperties.DefaultConfigMergeSettings | src/config.ts:76-80 | `defaultConfig`'s flags are false, its merge method is `merge` and its commit message is unset |
| ConfigProperties.DefaultSettingsCarryOver | src/config.ts:153-159 | Default settings survive any merge that leaves every key but `rules` unchanged |
| ConfigProperties.DefaultConfigDescribed | src/config.ts:75-82 | A record carrying the default settings (and no rules) describes the typed default configuration |
| ConfigProperties.DefaultRuleDescribed | src/config.ts:55-73 | A record carrying the default condition settings describes the typed default condition config |
| ConfigProperties.DefaultRuleLiteralDecodes | src/config.ts:55-73 | `defaultRuleConfig` passes the condition-config decoder and decodes to the typed defaults |
| ConfigProperties.EmptyUserConfigYieldsDefaults | src/config.ts:75-82 | A user config that spreads nothing (`{}`, `true`, `0`) yields exactly the default configuration |
| ConfigProperties.IndexKeysResolveToDefaults | src/config.ts:153-159 | A user config whose own keys are all index keys resolves to a record holding every default setting and no rules |
| ConfigProperties.IndexKeysYieldDefaults | src/config.ts:152-166 | A user config whose own keys are all index keys yields exactly the default configuration |
| ConfigProperties.NonObjectUserConfigYieldsDefaults | src/config.ts:152-166 | A user config that is a list, string, boolean or number overrides no setting and yields exactly the default configuration |
| ConfigProperties.EmptyRuleEntryYieldsDefaultRule | src/config.ts:156-159 | A rule entry that spreads nothing yields exactly the default condition config |
| ConfigProperties.DefaultsAgreeOnRuleSettings | src/config.ts:75-82 | `defaultConfig` and `defaultRuleConfig` agree on every condition setting |
| ConfigProperties.OverridesAgreeOnRuleSettings | src/config.ts:153-159 | Overriding both default records with the same keys keeps them in agreement on every condition setting |
| ConfigProperties.RuleDescriptionTransfers | src/config.ts:104-119 | Records that agree on every condition setting describe the same condition configs |
| ConfigProperties.TopLevelConditionsAreShallowOverride | src/config.ts:153-155 | The top-level conditions of a resolved config are what the user's settings, filled with the rule defaults, decode to |
| ConfigProperties.CountsWithoutNone | src/config.ts:94-102 | A count object without a `NONE` key gives no count for `NONE` |
| ConfigProperties.UserCountsReplaceDefaultCounts | src/config.ts:59-61 | A user-given `maxRequestedChanges` replaces the default as a whole: without `NONE`, the default `{NONE: 0}` limit is gone |
| ConfigProperties.MergeMethodIsShallowOverride | src/config.ts:79 | The merge method is the user's if given, otherwise `merge` |
| ConfigProperties.OnlyMergeIsNamedMerge | src/config.ts:141 | Only the `merge` method is named `merge` |
| ConfigProperties.FlagsAreShallowOverride | src/config.ts:77-80 | Each of the three flags is the user's value if given, otherwise false |
| ConfigProperties.FalsyRulesYieldNoRules | src/config.ts:156 | A missing or falsy `rules` yields no explicit rules |
| ConfigProperties.RulesFollowUserList | src/config.ts:156-159 | There is one resolved rule per user entry, in order, each that entry filled with the rule defaults |
| ConfigProperties.RulesIgnoreTopLevelSettings | src/config.ts:156-159 | Explicit rules depend only on the user's `rules` list; top-level condition settings never leak into them |
| ConfigProperties.MergeMethodRefused | src/config.ts:140-144 | A record whose merge method is not `merge`, `rebase` or `squash` fails validation |
| ConfigProperties.MergeMethodNameListed | src/config.ts:140-144 | Every merge method's name is one of the three alternatives of the decoder |
| ConfigProperties.UnknownMergeMethodRejected | src/config.ts:161-164 | An unknown user merge method is refused with a `ConfigValidationError` carrying the merged record |
| ConfigProperties.UnknownAuthorRoleRejected | src/config.ts:136 | An unknown top-level author role is refused with a `ConfigValidationError` carrying the merged record |
| ConfigProperties.UnknownRuleAuthorRoleRejected | src/config.ts:118 | An unknown author role in any rule entry is refused the same way |
| ConfigProperties.NonBooleanFlagRejected | src/config.ts:137-139 | A flag set to a non-boolean is refused the same way |
| ConfigProperties.RequiredRuleKeyPresent | src/config.ts:104-119 | A record describing a condition config has every condition key but the four regexes |
| ConfigProperties.RequiredSettingKeyPresent | src/config.ts:121-146 | A record describing a configuration has `rules`, the three flags and `mergeMethod` |
| ConfigProperties.MissingRequiredKeyRejected | src/config.ts:121-146 | A record missing any required key fails validation |
| Conditions.Key | src/conditions/index.ts:22-41 | Each condition's catalog key is non-empty and starts with a lowercase letter |
| Conditions.CatalogKeys | src/conditions/index.ts:44 | `keysOf` lists, position by position, the key of each name |
| Conditions.ParseFrom | src/conditions/index.ts:22-41 | Lookup among names finds a listed name with that key, and finds none exactly when no listed name has that key |
| Conditions.Parse | src/conditions/index.ts:22-41 | Indexing the catalog by a string finds only the condition registered under that string |
| Conditions.CatalogSize | src/conditions/index.ts:22-44 | The catalog and `conditionNames` hold seventeen entries |
| Conditions.ConditionNamesComplete | src/conditions/index.ts:44-45 | Every `ConditionName` is in `conditionNames` |
| Conditions.AllConditionNamesListed | src/conditions/index.ts:44-45 | `conditionNames` lists every condition name |
| Conditions.ConditionNamesDistinct | src/conditions/index.ts:44 | No name appears twice in `conditionNames` |
| Conditions.KeysDistinct | src/conditions/index.ts:22-44 | No catalog key appears twice |
| Conditions.KeyDiffers | src/conditions/index.ts:22-41 | Distinct conditions are registered under distinct keys |
| Conditions.ParseKey | src/conditions/index.ts:22-41 | Looking up a condition's key gives back that condition |
| Conditions.ParseExact | src/conditions/index.ts:45 | A string is found in the catalog if and only if it is some condition's key |
| Conditions.RequiredChecksIsDisabled | src/conditions/index.ts:16-36 | `requiredChecks` is commented out: it is no condition's key and is not found in the catalog |
| Conditions.RequiredChecksIsNoKey | src/conditions/index.ts:36 | No condition is registered as `requiredChecks` |
| Conditions.BlockingChecksIsEnabled | src/conditions/index.ts:5-25 | `blockingChecks` is in the catalog |
| Conditions.TabulateFrom | src/conditions/index.ts:46 | Tabulating over a list of names gives an entry for exactly those names, each the evaluator's result |
| Conditions.Tabulate | src/conditions/index.ts:46 | A results record built from an evaluator holds that evaluator's result for every condition |
| Conditions.ResultsAreTotal | src/conditions/index.ts:46 | Every `ConditionResults` value has an entry for every condition name |

## Left out

- `src/index.ts`, the webhook handling, the worker queue and the merge-decision aggregation are not part of this model.
- The condition evaluators, `src/condition.ts`, `src/pattern.ts` and `src/github-models.ts` are not part of this model. `ConditionResult` is modelled as a status (success, failure, pending) plus an optional message. The role names are the association strings of the platform's API (`MEMBER` … `NONE`), assumed equal to the enum's values.
- Reading the file: `probot-config`'s `getConfig` and the YAML parse are I/O. `Config.LoadConfig` takes the fetched document as a parameter.
- Error texts, `Object.setPrototypeOf` and the exception machinery are left out. A thrown error is a `Failure` value, and the library's message text is a `Reason` constructor.
- `Decoders.Optional`: accepts only `undefined`. Versions of the validation library differ on whether `null` is also accepted, and the model commits to the stricter one.
- `Decoders.DecodeNumber`: numbers are exact rationals. NaN, infinities and floating-point rounding are not modelled, and nothing is claimed about integer counts.
- `Decoders.Field`: undeclared keys are ignored, as the library's `object` does; `NonObjectUserConfigYieldsDefaults` and `IndexKeysYieldDefaults` rely on it.
- Which error is reported first depends on the decoders' key order. The model follows the source's key order, but no lemma states the exact error, only that it comes from the decoder and the merged record is attached.
- `Conditions.ConditionResults`: the type requires an entry for every condition, as the source's mapped type does. Reporting only the configured conditions (omitting those with default settings) belongs to the aggregation, which is not part of this model.
