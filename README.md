# Trino ACL decision engine, modelled in Dafny

This project models the access-control core of `trino-acl-manager`: the rule
records of a file-based Trino access-control document, loading and dumping
that document, identity and pattern matching, the three first-match-wins
scope evaluators (catalog, schema, table) and the composer that builds the
effective-access result for a principal and a catalog, schema and table
request.

Modules, one per source file:

- `Wrappers` (`wrappers.dfy`): `Option` and a failure-compatible `Result`.
- `Models` (`models.dfy`, acl/models.py): the nine rule kinds, the catalog
  `allow` levels, the `Privilege` literal (`IsPrivilege`), the rule set
  (`RuleSet`) and `Empty()`. `ValidRuleSet` says every stored table
  privilege belongs to the literal. Validation on load guarantees this.
- `Patterns` (`patterns.dfy`): the regular-expression-or-literal `Match`.
  The source writes it twice, as `_match` in acl/evaluator.py and as the
  inner `m` of `match_identity` in acl/parser.py, with identical code. It is
  defined once here. The host's regular-expression library is a parameter,
  `RegexEngine(compiles, fullMatch)`.
- `Parser` (`parser.dfy`, acl/parser.py): `MatchIdentity`, the document as a
  `Json` value, `DumpRules`/`LoadRules` with pydantic's field validation and
  defaults, and the round-trip lemmas.
- `Evaluator` (`evaluator.dfy`, acl/evaluator.py): `PRIVS`, the privilege
  mapping of `allow`, the privilege filter, and the loop methods `EvalCatalog`,
  `EvalSchema`, `EvalTable` and `EffectiveAccess`. Each is proved against a
  specification function (`CatalogDecisionFor`, `SchemaDecisionFor`,
  `TableDecisionFor`, `AccessFor`) built on the generic first-match scan
  `FirstMatch`.
- `Scenarios` (`scenarios.dfy`): the cases of tests/test_evaluator.py and the
  wildcard catalog rule.

Evaluation takes the rule set as an immutable value and its methods modify
nothing, so "evaluation never changes the rule set" holds by construction.

Behaviour of the code that the model keeps:

- Group and role memberships are lists, and so are table privileges; a
  list may repeat an entry.
- An identity field set to the empty string is not absent. It turns off the
  match-everyone case and adds no test, so a rule whose only identity field
  is `""` matches nobody (`Parser.EmptyPatternsMatchNobody`).
- The dump/load round trip holds for rule sets whose table privileges all
  belong to the literal. Validation refuses any other token on reload, so
  a rule set holding one would not survive a round trip
  (`Parser.LoadDumpRoundTrip` requires `ValidRuleSet`).

## Model

| member | source | states |
|---|---|---|
| `Models.Empty` | trino-acl-manager/acl/models.py:84-86 | `empty()` has all nine lists empty and is a valid rule set |
| `Patterns.MalformedPatternIsLiteral` | trino-acl-manager/acl/evaluator.py:9-13 | a pattern that does not compile matches by string equality: "[" matches "[" and not "x" |
| `Parser.AnyMatch` | trino-acl-manager/acl/parser.py:24 | `any(m(pat, g) for g in groups)` holds exactly when some element of the list matches |
| `Parser.WildcardIdentity` | trino-acl-manager/acl/parser.py:27-28 | a rule with user, group and role all None matches every principal |
| `Parser.IdentityIsDisjunction` | trino-acl-manager/acl/parser.py:20-26 | with any identity field set, the match is the OR of: user pattern matches the user, group pattern matches some group, role pattern matches some role (each only when the pattern is non-empty); both directions |
| `Parser.NoMembershipsOnlyUser` | trino-acl-manager/acl/parser.py:23-26 | with no groups and no roles only the user test can succeed |
| `Parser.EmptyPatternsMatchNobody` | trino-acl-manager/acl/parser.py:21-28 | identity fields that are set but all `""` match no principal |
| `Parser.GroupAloneSuffices` | trino-acl-manager/acl/parser.py:22-24 | user "alice" with group "finance" admits bob in group finance: OR, not AND |
| `Parser.PutIdentity` | trino-acl-manager/acl/parser.py:11 | the dump writes user, group and role exactly when set, never null, and they read back unchanged |
| `Parser.EncodeCatalogRule` | trino-acl-manager/acl/models.py:7-12 | a dumped catalog rule has user/group/role keys exactly when set and no null value |
| `Parser.EncodeSchemaRule` | trino-acl-manager/acl/models.py:14-20 | a dumped schema rule has user/group/role keys exactly when set and no null value |
| `Parser.EncodeTableRule` | trino-acl-manager/acl/models.py:22-29 | a dumped table rule has user/group/role keys exactly when set and no null value |
| `Parser.EncodeFunctionRule` | trino-acl-manager/acl/models.py:31-37 | a dumped function rule has user/group/role keys exactly when set and no null value |
| `Parser.EncodeProcedureRule` | trino-acl-manager/acl/models.py:39-45 | a dumped procedure rule has user/group/role keys exactly when set and no null value |
| `Parser.EncodeSessionPropertyRule` | trino-acl-manager/acl/models.py:47-53 | a dumped session-property rule has user/group/role/catalog keys exactly when set and no null value |
| `Parser.EncodeQueryRule` | trino-acl-manager/acl/models.py:55-60 | a dumped query rule has user/group/role/query keys exactly when set and no null value |
| `Parser.EncodeSystemInformationRule` | trino-acl-manager/acl/models.py:62-66 | a dumped system-information rule has user/group/role keys exactly when set and no null value |
| `Parser.EncodeImpersonationRule` | trino-acl-manager/acl/models.py:68-71 | a dumped impersonation rule has exactly principal, user and allow |
| `Parser.DumpRules` | trino-acl-manager/acl/parser.py:10-12 | `dump_rules(r, True)` is `{"data": dump_rules(r, False)}` |
| `Parser.DumpedKeys` | trino-acl-manager/acl/parser.py:11 | an unwrapped dump has exactly the nine list keys, empty lists included, and no `data` key |
| `Parser.AllowOr` | trino-acl-manager/acl/models.py:12 | a catalog `allow` is one of "all", "read-only", "none" and defaults to "none" |
| `Parser.DecodePrivileges` | trino-acl-manager/acl/models.py:5 | a privilege list loads exactly when every item is a string in the literal, and then loads as those strings in order |
| `Parser.PrivilegesOr` | trino-acl-manager/acl/models.py:29 | loaded table privileges hold only members of the literal |
| `Parser.DecodeTableRule` | trino-acl-manager/acl/models.py:22-29 | a loaded table rule is valid |
| `Parser.DecodeAll` | trino-acl-manager/acl/models.py:74-82 | a loaded list has one decoded rule per element, in the same order |
| `Parser.ListOr` | trino-acl-manager/acl/models.py:74-82 | a present list field must be a list and decodes element by element, in order |
| `Parser.DecodeRuleSet` | trino-acl-manager/acl/models.py:73-82 | a rule set that passes validation is valid |
| `Parser.LoadRules` | trino-acl-manager/acl/parser.py:6-8 | a non-object document fails; with a `data` key the value under it is the rule set, without one the document itself is; every loaded rule set is valid |
| `Parser.ScopeRuleDefaults` | trino-acl-manager/acl/models.py:7-29 | omitted fields default: identity None, `allow` "none", `owner` false, privileges empty; a missing catalog fails |
| `Parser.OtherRuleDefaults` | trino-acl-manager/acl/models.py:31-71 | omitted fields default: `execute` and `allow` true, optionals None; impersonation without `user` fails |
| `Parser.EmptyDocumentLoadsEmpty` | trino-acl-manager/acl/models.py:73-86 | an empty document, bare or wrapped, loads as `empty()` |
| `Parser.EnvelopeIgnoresOtherKeys` | trino-acl-manager/acl/parser.py:7 | with a `data` key, every other top-level key is ignored |
| `Parser.PrivilegesRoundTrip` | trino-acl-manager/acl/models.py:29 | a valid privilege list survives dump and load |
| `Parser.CatalogRuleRoundTrip` | trino-acl-manager/acl/models.py:7-12 | a catalog rule survives dump and load |
| `Parser.SchemaRuleRoundTrip` | trino-acl-manager/acl/models.py:14-20 | a schema rule survives dump and load |
| `Parser.TableRuleRoundTrip` | trino-acl-manager/acl/models.py:22-29 | a valid table rule survives dump and load |
| `Parser.FunctionRuleRoundTrip` | trino-acl-manager/acl/models.py:31-37 | a function rule survives dump and load |
| `Parser.ProcedureRuleRoundTrip` | trino-acl-manager/acl/models.py:39-45 | a procedure rule survives dump and load |
| `Parser.SessionPropertyRuleRoundTrip` | trino-acl-manager/acl/models.py:47-53 | a session-property rule survives dump and load |
| `Parser.QueryRuleRoundTrip` | trino-acl-manager/acl/models.py:55-60 | a query rule survives dump and load |
| `Parser.SystemInformationRuleRoundTrip` | trino-acl-manager/acl/models.py:62-66 | a system-information rule survives dump and load |
| `Parser.ImpersonationRuleRoundTrip` | trino-acl-manager/acl/models.py:68-71 | an impersonation rule survives dump and load |
| `Parser.ListRoundTrip` | trino-acl-manager/acl/models.py:74-82 | a list whose rules round-trip survives dump and load in the same order |
| `Parser.LoadDumpRoundTrip` | trino-acl-manager/acl/parser.py:6-12 | `load_rules(dump_rules(r, w)) == r` for either `w`, every list in order, for a valid rule set |
| `Parser.DumpLoadDumpStable` | trino-acl-manager/acl/parser.py:6-12 | dumping after a load of a dump gives the same document |
| `Evaluator.PrivsAreThePrivilegeLiteral` | trino-acl-manager/acl/evaluator.py:7 | `PRIVS` lists the seven members of the `Privilege` literal, each once |
| `Evaluator.AllowedPrivileges` | trino-acl-manager/acl/evaluator.py:24 | derived privileges are an ordered sub-list of `PRIVS`: all of it for "all", exactly SELECT and CREATE_VIEW for "read-only", empty exactly for "none" |
| `Evaluator.FilterPrivileges` | trino-acl-manager/acl/evaluator.py:41 | the filter keeps only members of `PRIVS`, every occurrence of each, in order, and is the identity when all are members |
| `Evaluator.FirstMatch` | trino-acl-manager/acl/evaluator.py:16-26 | the scan returns the first index whose rule applies, every earlier rule fails, and nothing is returned exactly when no rule applies |
| `Evaluator.FirstMatchAppend` | trino-acl-manager/acl/evaluator.py:16-25 | rules after the first applicable one are never consulted |
| `Evaluator.EvalCatalog` | trino-acl-manager/acl/evaluator.py:15-26 | the loop returns the catalog decision of the first rule passing the identity and catalog tests, else the default deny |
| `Evaluator.CatalogFirstMatchWins` | trino-acl-manager/acl/evaluator.py:15-26 | the first applicable catalog rule decides; no match iff no rule applies, then `none` with no privileges; privileges follow `allow` alone |
| `Evaluator.CatalogLaterRulesIgnored` | trino-acl-manager/acl/evaluator.py:16-25 | appending rules after an applicable one never changes the catalog decision |
| `Evaluator.EvalSchema` | trino-acl-manager/acl/evaluator.py:28-34 | the loop returns the first rule passing identity, catalog and schema tests with its `owner`, else not owner |
| `Evaluator.SchemaFirstMatchWins` | trino-acl-manager/acl/evaluator.py:28-34 | the first applicable schema rule decides; no match iff no rule applies, then not owner; ownership needs an applicable owner rule |
| `Evaluator.EvalTable` | trino-acl-manager/acl/evaluator.py:36-43 | the loop returns the first rule passing identity and all three coordinate tests with its filtered privileges, else none |
| `Evaluator.TableFirstMatchWins` | trino-acl-manager/acl/evaluator.py:36-43 | the first applicable table rule decides; privileges are always in `PRIVS` and an ordered sub-list of the rule's; no match iff no rule applies, then empty |
| `Evaluator.ValidTablePrivilegesKept` | trino-acl-manager/acl/evaluator.py:41 | for validated rules the filter drops nothing |
| `Evaluator.EffectiveAccess` | trino-acl-manager/acl/evaluator.py:45-57 | `catalog` always present; `schema` exactly when a non-empty schema is given; `table` exactly when schema and table are both non-empty; `visible` iff `allow` is not "none" |
| `Scenarios.SelectAllowed` | trino-acl-manager/tests/test_evaluator.py:5-12 | bob in group analyst on hive.sales.orders: catalog read-only and visible, table privileges SELECT and CREATE_VIEW |
| `Scenarios.DefaultDeny` | trino-acl-manager/tests/test_evaluator.py:14-18 | an empty rule set: `allow` none, not visible, no owner, no table privileges, for any request |
| `Scenarios.WildcardCatalogRule` | trino-acl-manager/app.py:39 | a leading catalog rule `.*` without identity fields decides the request for every principal and every catalog name `.*` fully matches (in Python, every name without a newline) |

## Left out

- Python's `re` module is not modelled. Whether a pattern compiles and whether it fully matches a value are the two functions of `RegexEngine`. The test scenarios assume only that their literal names match themselves (`MatchesItself`). The wildcard lemma assumes only that `.*` compiles and fully matches the requested catalog name. The model does not show that full matching is anchored at both ends: that is the library's job.
- JSON text is not modelled (`json.loads`, `model_dump_json`, key order). The document is a `Json` value whose objects are maps. Its numbers are integers only. So a boolean field given `1.0` or `0.0`, which pydantic accepts, has no counterpart, and neither does a fractional number under a key the loader ignores, which loads fine in the source.
- Only part of pydantic's lax coercion is modelled. A boolean field accepts JSON booleans and the integers 0 and 1. String forms such as "true" or "yes" fail here, although pydantic accepts them. Failure messages are not pydantic's.
- Function, procedure, session-property, query, system-information and impersonation rules are only stored, loaded and dumped. The source has no evaluator for them.
- The UI in trino-acl-manager/app.py is not modelled: editing rules in place, file upload and download, comma-splitting of groups and roles, and the `ser` display helper. No code path in the repository stores a privilege token outside the literal: the editor offers only the seven members.
- trino-monitor/app.py and trino-catalog-explorer/app.py are not modelled. They are database and network clients and dashboards with no evaluation logic.
- `matched_rule` is the rule's value, not a reference to the stored object. Likewise the privileges for "all" are a value, while the source returns the module-level `PRIVS` list itself, which a caller could then mutate. Aliasing is not modelled.
- Exceptions other than `re.error` from the regular-expression library are not modelled. The source catches only `re.error`, so any other exception aborts the evaluation; an example is the `OverflowError` CPython raises for a repeat count that is too large, as in `a{4294967296}`. `Match` is two-valued and cannot fail.
- Scenarios.SelectAllowed starts from the rule set the test builds. The step from the test's dictionary to the rule set is covered by the general decoding and default lemmas, not by a lemma about that dictionary.
