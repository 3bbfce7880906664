# DevSecOps policy pack and STRIDE report — a Dafny model

This project models the two pieces of decision logic in the DevSecOps
classroom repository:

* the CrossGuard policy pack `heise-security-policies`. It has fourteen
  rules over DigitalOcean droplets, firewalls and volumes and over Cloudflare
  DNS records. Each rule checks a resource's type token and then its
  property bag, and reports zero or more violations at a fixed enforcement
  level, `mandatory` or `advisory`;
* the rule-based STRIDE threat heuristics, which fill six categories
  (Spoofing, Tampering, Repudiation, InformationDisclosure, DenialOfService,
  ElevationOfPrivilege) from keyword matches in a lower-cased description.
  With them comes the Markdown serialiser that turns such a category map
  into the pull-request comment.

Files and modules:

| file | module | contents |
|---|---|---|
| `text.dfy` | `Options`, `Text` | `Option`; ASCII lower-casing, substring search, decimal rendering of integers and its parse-back |
| `policy.dfy` | `Policy` | resource and violation datatypes, JavaScript truthiness, the registry of fourteen policies and one function per rule |
| `policy_properties.dfy` | `PolicyProperties` | properties of the registry and of single rules |
| `evaluation.dfy` | `PolicyEvaluation` | a fold running a list of policies over a list of resources, and what it promises |
| `policy_fixtures.dfy` | `PolicyFixtures` | the rules applied to the firewall, DNS record and volumes the stack declares |
| `stride.dfy` | `Stride` | `rule_based_stride` and `format_stride_markdown` as methods, each proved equal to a pure specification function |
| `stride_properties.dfy` | `StrideProperties` | properties of those specification functions |

The policy rules are pure closures, so they are functions returning the
list of violations that `reportViolation` would have been called with, in
call order. The two Python functions build a dictionary of lists and a list
of output fragments step by step, so they are methods. `RuleBasedStride`
appends to the dictionary's lists. `FormatStrideMarkdown` appends to an
output list in nested loops and joins it at the end. A Python dictionary is
a sequence of `Entry(category, items)` in insertion order.

JavaScript truthiness is written out. Examples:
* an unset or zero `ttl` fires neither TTL check;
* an unset `size` compares as `NaN`, so both `size < 1` and `size > 100` are false;
* an empty `description` or `name` is falsy;
* an empty array is truthy.

`size` is either a slug (droplets) or a number of gigabytes (volumes).

## Model

| member | source | states |
|---|---|---|
| Text.Lower | devsecops_ki_extensions/threat_modeling_pr.py:20 | lower-casing keeps the length and maps every character through the ASCII case fold |
| Text.LowerIdempotent | devsecops_ki_extensions/threat_modeling_pr.py:20 | lower-casing twice is lower-casing once |
| Text.ContainsAt | iac/policy/index.ts:105 | `includes` / `in` holds exactly when the pattern occurs at some index of the text |
| Text.IntToDecimalRoundTrip | iac/policy/index.ts:134 | the decimal text interpolated into a message reads back as the same integer, with a minus sign exactly for negatives |
| Text.IntToDecimalInjective | iac/policy/index.ts:234 | distinct integers render as distinct decimal texts |
| Policy.ValidateMonitoring | iac/policy/index.ts:16-27 | at most one violation; one exactly for a droplet whose monitoring is unset or false; it is mandatory with the fixed message |
| Policy.ValidateIpv6 | iac/policy/index.ts:28-39 | at most one violation; one exactly for a droplet with ipv6 true; advisory |
| Policy.ValidateSshKeys | iac/policy/index.ts:40-54 | at most one violation; one exactly for a droplet whose sshKeys are unset or empty; advisory |
| Policy.HasWildcard | iac/policy/index.ts:64-66 | true exactly when "0.0.0.0/0" or "::/0" is among the source addresses |
| Policy.SshViolations | iac/policy/index.ts:62-75 | no more violations than inbound rules; none exactly when no rule opens port 22 to a wildcard source; each is the advisory SSH message |
| Policy.ValidateSshRestricted | iac/policy/index.ts:55-79 | nothing for a non-firewall or unset inboundRules; otherwise the per-rule SSH violations |
| Policy.OutboundViolations | iac/policy/index.ts:87-94 | no more violations than outbound rules; none exactly when no port range is "0" or "1-65535"; each is the advisory outbound message |
| Policy.ValidateOutboundRestricted | iac/policy/index.ts:80-98 | nothing for a non-firewall or unset outboundRules; otherwise the per-rule outbound violations |
| Policy.ValidateBackup | iac/policy/index.ts:99-113 | at most one violation; one exactly for a volume whose description is unset or whose lower-cased form lacks "backup" |
| Policy.ValidateMinimumSize | iac/policy/index.ts:114-125 | at most one violation; one exactly for a volume with a numeric size below 1; mandatory |
| Policy.ValidateTtl | iac/policy/index.ts:126-146 | at most one violation; one exactly for a DNS record with a non-zero TTL below 120 or above 86400; its message quotes the TTL and says which bound |
| Policy.ValidateProxy | iac/policy/index.ts:147-162 | at most one violation; one exactly for a DNS record of type "A" whose proxied flag is unset or false |
| Policy.ValidateDropletName | iac/policy/index.ts:163-174 | at most one violation; one exactly for a droplet whose name is unset or shorter than 3 |
| Policy.ValidateTags | iac/policy/index.ts:175-189 | at most one violation; one exactly for a droplet whose tags are unset or empty |
| Policy.ValidateFirewallName | iac/policy/index.ts:190-204 | at most one violation; one exactly for a firewall whose name is unset or shorter than 5 |
| Policy.ValidateDropletSizeCost | iac/policy/index.ts:205-225 | at most one violation; one exactly for a droplet whose size slug is one of the four expensive ones; the message quotes the slug |
| Policy.ValidateVolumeSizeCost | iac/policy/index.ts:226-240 | at most one violation; one exactly for a volume above 100 GB; the message quotes the size |
| PolicyProperties.MandatoryPolicies | iac/policy/index.ts:14-242 | a policy is mandatory exactly when it is droplet-monitoring-required or volume-minimum-size |
| PolicyProperties.RegistryComplete | iac/policy/index.ts:14-242 | the pack lists all fourteen policies, under pairwise distinct names |
| PolicyProperties.ValidateOnlyGuardedTypes | iac/policy/index.ts:21-231 | a policy reports nothing for a resource type its guard does not accept |
| PolicyProperties.ViolationsCarryPolicy | iac/policy/index.ts:14-242 | every violation a policy reports carries that policy's name and level |
| PolicyProperties.SshViolationsConcat | iac/policy/index.ts:62-75 | the SSH violations of two rule lists are those of each, one after the other |
| PolicyProperties.SshViolationsOfOneRule | iac/policy/index.ts:63-73 | one rule yields one SSH violation if it opens port 22 to a wildcard source, none otherwise |
| PolicyProperties.SshViolationsIgnoreOtherRules | iac/policy/index.ts:63 | a rule on another port or without sources changes nothing |
| PolicyProperties.OutboundViolationsConcat | iac/policy/index.ts:87-94 | the outbound violations of two rule lists are those of each, one after the other |
| PolicyProperties.OutboundViolationsOfOneRule | iac/policy/index.ts:88-93 | one rule yields one outbound violation if it allows every port, none otherwise |
| PolicyProperties.TtlMessagesQuoteTtl | iac/policy/index.ts:133-142 | equal TTL messages of the same kind come from equal TTLs |
| PolicyProperties.TtlMessagesDistinguishable | iac/policy/index.ts:133-142 | a "too low" message never equals a "too high" message |
| PolicyProperties.VolumeSizeCostMessageQuotesSize | iac/policy/index.ts:233-236 | equal volume-size messages come from equal sizes |
| PolicyProperties.DropletSizeCostMessageQuotesSlug | iac/policy/index.ts:217-221 | equal droplet-size messages come from equal slugs |
| PolicyProperties.VolumeSizeRulesExclusive | iac/policy/index.ts:119-233 | no volume draws both volume-minimum-size and volume-size-cost-awareness |
| PolicyProperties.BackupCheckIgnoresCase | iac/policy/index.ts:105 | lower-casing the description does not change the backup rule's verdict |
| PolicyEvaluation.EvaluateConcat | iac/policy/index.ts:14-242 | evaluating two resource lists gives the two reports one after the other |
| PolicyEvaluation.EvaluateMembership | iac/policy/index.ts:14-242 | a violation is in the report exactly when some listed policy reports it for some listed resource |
| PolicyEvaluation.ViolationsInheritPolicyLevel | iac/policy/index.ts:14-242 | every reported violation has the name and level of a policy that was run |
| PolicyEvaluation.UnguardedTypeYieldsNothing | iac/policy/index.ts:21-231 | a resource of a type no guard tests draws no violation from any list of policies |
| PolicyEvaluation.PolicyOrderIrrelevant | iac/policy/index.ts:14-242 | reordering the policies reorders the report and changes nothing else, as multisets |
| PolicyEvaluation.MandatoryViolationCause | iac/policy/index.ts:17-124 | a mandatory violation comes from a droplet without monitoring or a volume below 1 GB |
| PolicyEvaluation.BlockingExactlyWhenMandatoryRuleFires | iac/policy/index.ts:17-124 | with both mandatory policies run, the report has a mandatory violation exactly when some droplet lacks monitoring or some volume is below 1 GB |
| PolicyEvaluation.BlockingHasCause | iac/policy/index.ts:17-124 | a mandatory violation in the report has such a resource behind it |
| PolicyEvaluation.CauseBlocks | iac/policy/index.ts:17-124 | such a resource puts a mandatory violation in the report |
| PolicyEvaluation.PackBlocksExactlyOnMandatoryFindings | iac/policy/index.ts:14-242 | the same for the whole pack |
| PolicyEvaluation.RegistryHoldsMandatoryPolicies | iac/policy/index.ts:14-242 | the pack includes both mandatory policies |
| PolicyFixtures.StackInboundFindings | iac/index.ts:143-148 | the n8n firewall's inbound rules draw exactly one SSH advisory |
| PolicyFixtures.StackOutboundFindings | iac/index.ts:149-153 | its outbound rules draw exactly two outbound advisories, for TCP and UDP on port "0" |
| PolicyFixtures.UnproxiedRecordFindings | iac/policy/index.ts:126-162 | an unproxied A record with an unset, zero or in-range TTL draws the proxy advisory and nothing else from any policy |
| PolicyFixtures.StackRecordFindings | iac/index.ts:156-163 | the stack's DNS record (A, not proxied, TTL 300) draws only the proxy advisory |
| PolicyFixtures.NoLetterBNoBackup | iac/policy/index.ts:105 | a description without a 'b' or 'B' never passes the backup check |
| PolicyFixtures.UndocumentedVolumeFindings | iac/policy/index.ts:99-240 | a 1–100 GB volume whose description has no 'b' draws the backup advisory and nothing else |
| PolicyFixtures.N8nVolumeFindings | iac/modules/n8n.ts:36-42 | the 25 GB n8n volume draws only the backup advisory |
| PolicyFixtures.JuiceShopVolumeFindings | iac/modules/juiceShop.ts:35-41 | the 1 GB Juice Shop volume draws only the backup advisory; 1 GB passes volume-minimum-size |
| Stride.Lookup | devsecops_ki_extensions/threat_modeling_pr.py:83 | the looked-up list belongs to an entry under that key |
| Stride.MentionsAnyIff | devsecops_ki_extensions/threat_modeling_pr.py:22 | `any(x in text ...)` holds exactly when some keyword occurs in the text |
| Stride.AppendToSections | devsecops_ki_extensions/threat_modeling_pr.py:23-33 | appending under a category name extends that category's list and no other |
| Stride.RuleBasedStride | devsecops_ki_extensions/threat_modeling_pr.py:17-34 | the method's dictionary equals the specification `ThreatsFor` of the description |
| Stride.JoinSnoc | devsecops_ki_extensions/threat_modeling_pr.py:96 | joining one more fragment appends it to the joined text |
| Stride.RenderEntriesSnoc | devsecops_ki_extensions/threat_modeling_pr.py:86-92 | the sections of one more category are the earlier sections followed by its own |
| Stride.AppendNumberedLines | devsecops_ki_extensions/threat_modeling_pr.py:91-92 | the inner loop appends exactly the numbered lines of the items |
| Stride.AppendSection | devsecops_ki_extensions/threat_modeling_pr.py:87-92 | one category appends its heading, then its numbered items or the placeholder |
| Stride.AppendSections | devsecops_ki_extensions/threat_modeling_pr.py:86-92 | the outer loop appends the sections of every category, in dictionary order |
| Stride.FormatStrideMarkdown | devsecops_ki_extensions/threat_modeling_pr.py:77-96 | the method's result equals the specification `Markdown`; it fails exactly where the original raises |
| StrideProperties.ThreatsForShape | devsecops_ki_extensions/threat_modeling_pr.py:17-34 | six distinct keys in the order Spoofing … ElevationOfPrivilege, and never "LLMOutput" |
| StrideProperties.ThreatsForKeywords | devsecops_ki_extensions/threat_modeling_pr.py:20-33 | each category is non-empty exactly when one of its keyword groups occurs in the lower-cased description |
| StrideProperties.ThreatsForBounds | devsecops_ki_extensions/threat_modeling_pr.py:22-33 | Spoofing and Repudiation are equally long, at most one; Tampering at most two, SQL injection before upload; the others at most one |
| StrideProperties.NoKeywordsNoThreats | devsecops_ki_extensions/threat_modeling_pr.py:19-34 | a description without any keyword yields six empty lists |
| StrideProperties.NoneMentioned | devsecops_ki_extensions/threat_modeling_pr.py:22 | `any` is false when no keyword occurs |
| StrideProperties.ThreatsForIgnoresCase | devsecops_ki_extensions/threat_modeling_pr.py:20 | the threat model of a description equals that of its lower-cased form |
| StrideProperties.MarkdownFailsOnlyOnEmptyRawAnswer | devsecops_ki_extensions/threat_modeling_pr.py:81-83 | rendering fails exactly when "LLMOutput" is present with an empty list |
| StrideProperties.MarkdownFrame | devsecops_ki_extensions/threat_modeling_pr.py:79-96 | every report starts with the title and ends with the separator and signature |
| StrideProperties.RawAnswerOverrides | devsecops_ki_extensions/threat_modeling_pr.py:81-83 | two maps with the same first raw answer render identically, whatever their other keys |
| StrideProperties.RuleBasedReportRenders | devsecops_ki_extensions/threat_modeling_pr.py:77-96 | a rule-based threat model always renders as title, its sections, footer |
| StrideProperties.EmptySectionShowsPlaceholder | devsecops_ki_extensions/threat_modeling_pr.py:87-89 | an empty category renders as its heading and the placeholder |
| StrideProperties.NumberedItemsSnoc | devsecops_ki_extensions/threat_modeling_pr.py:91-92 | items are numbered from 1 in order: the n-th item gets the line "n. item" |

## Left out

- The Pulumi runtime, `PolicyPack` construction and registration, and the dispatch of `validateResource` over a stack (iac/policy/index.ts:1-2, 14) belong to a framework that is not part of this model. `PolicyEvaluation.Evaluate` (resource order, then policy order) and `HasBlockingViolations` are the model's own definitions. They are not claims about the framework.
- JavaScript dynamic typing beyond what the rules touch is left out. Properties are typed options. Coercion of a string `size` or `ttl` to a number is not modelled: a slug compared with a number counts as `NaN`. Fractional sizes are not modelled.
- The unread firewall-rule fields (`protocol`, `destinationAddresses`) are carried but never inspected, as in the rules.
- Lower-casing is ASCII `A`–`Z` only. Python's `str.lower` and JavaScript's `toLowerCase` fold all of Unicode, which is not modelled.
- JavaScript `length` counts UTF-16 code units. Here a string's length counts code points, so names with characters outside the Basic Multilingual Plane may be measured differently.
- `${n}` for integers of magnitude 1e21 and above uses exponent notation in JavaScript. Here it is always plain decimal.
- `llm_based_stride` (an environment lookup, a network call to a language model and JSON parsing of its answer), `print_stride` and `main` (console output, argument parsing, file writes, `json.dumps`) are not part of this model. A raw answer reaches `FormatStrideMarkdown` only as an "LLMOutput" entry of its input.
- `FormatStrideMarkdown`: the original indexes `threats["LLMOutput"][0]` and raises `IndexError` on an empty list. The model returns `None` there, and exceptions are not modelled further.
- The dictionary is a sequence of entries. A lookup takes the first entry under the key, which for a dictionary with distinct keys is the only one.
- `Stride.AppendSections` and its helpers keep the output list as a sequence value passed between methods, not a single list mutated in place. The order of appends is kept; aliasing is not modelled.
- The stack's wiring in iac/index.ts, iac/modules/n8n.ts and iac/modules/juiceShop.ts (Pulumi outputs, cloud-init text) is not modelled. Only its firewall, DNS record and volume literals appear, as fixtures. docker/app.py is not part of this model.
