/** Loading and dumping the rule document, and identity matching
    (acl/parser.py). */
module Parser {
  import opened Wrappers
  import opened Models
  import opened Patterns

  // ---------------------------------------------------------------------
  // Identity matching
  // ---------------------------------------------------------------------

  /** The caller whose access is decided: a user with group and role memberships. */
  datatype Principal = Principal(user: string, groups: seq<string>, roles: seq<string>)

  /** Python truthiness of an optional string: present and non-empty. */
  predicate Truthy(o: Option<string>) {
    o.Some? && o.value != ""
  }

  /** `any(m(pat, v) for v in values)`. */
  function AnyMatch(re: RegexEngine, pat: string, values: seq<string>): (r: bool)
    ensures r <==> exists i :: 0 <= i < |values| && Match(re, pat, values[i])
  {
    if values == [] then false
    else Match(re, pat, values[0]) || AnyMatch(re, pat, values[1..])
  }

  /** `match_identity`: each truthy identity pattern contributes a test and
      the tests are ORed; a rule with no identity field at all matches
      every principal. */
  function MatchIdentity(re: RegexEngine, user: Option<string>, group: Option<string>,
                         role: Option<string>, p: Principal): bool
  {
    var byUser := Truthy(user) && Match(re, user.value, p.user);
    var byGroup := Truthy(group) && AnyMatch(re, group.value, p.groups);
    var byRole := Truthy(role) && AnyMatch(re, role.value, p.roles);
    if user.None? && group.None? && role.None? then true
    else byUser || byGroup || byRole
  }

  /** A rule without identity fields matches every principal. */
  lemma WildcardIdentity(re: RegexEngine, p: Principal)
    ensures MatchIdentity(re, None, None, None, p)
  {
  }

  /** With at least one identity field set, the principal matches exactly
      when the user pattern matches the user, or the group pattern matches
      some group, or the role pattern matches some role. */
  lemma IdentityIsDisjunction(re: RegexEngine, user: Option<string>, group: Option<string>,
                              role: Option<string>, p: Principal)
    requires user.Some? || group.Some? || role.Some?
    ensures MatchIdentity(re, user, group, role, p) <==>
      || (Truthy(user) && Match(re, user.value, p.user))
      || (Truthy(group) && exists g :: g in p.groups && Match(re, group.value, g))
      || (Truthy(role) && exists r :: r in p.roles && Match(re, role.value, r))
  {
    if Truthy(group) {
      assert (exists g :: g in p.groups && Match(re, group.value, g)) <==>
             AnyMatch(re, group.value, p.groups) by {
        if g :| g in p.groups && Match(re, group.value, g) {
          var i :| 0 <= i < |p.groups| && p.groups[i] == g;
        }
      }
    }
    if Truthy(role) {
      assert (exists r :: r in p.roles && Match(re, role.value, r)) <==>
             AnyMatch(re, role.value, p.roles) by {
        if r :| r in p.roles && Match(re, role.value, r) {
          var i :| 0 <= i < |p.roles| && p.roles[i] == r;
        }
      }
    }
  }

  /** A principal without groups or roles can only match through the user pattern. */
  lemma NoMembershipsOnlyUser(re: RegexEngine, user: Option<string>, group: Option<string>,
                              role: Option<string>, p: Principal)
    requires user.Some? || group.Some? || role.Some?
    requires p.groups == [] && p.roles == []
    ensures MatchIdentity(re, user, group, role, p) <==> Truthy(user) && Match(re, user.value, p.user)
  {
  }

  /** An empty identity pattern contributes no test yet is not absent, so a
      rule whose set identity fields are all "" matches nobody. */
  lemma EmptyPatternsMatchNobody(re: RegexEngine, user: Option<string>, group: Option<string>,
                                 role: Option<string>, p: Principal)
    requires user.Some? || group.Some? || role.Some?
    requires user.Some? ==> user.value == ""
    requires group.Some? ==> group.value == ""
    requires role.Some? ==> role.value == ""
    ensures !MatchIdentity(re, user, group, role, p)
  {
  }

  /** OR semantics, not AND: user "alice" with group "finance" admits bob
      through his "finance" group although the user test fails. */
  lemma GroupAloneSuffices(re: RegexEngine, otherGroups: seq<string>)
    requires MatchesItself(re, "finance")
    ensures MatchIdentity(re, Some("alice"), Some("finance"), None,
                          Principal("bob", ["finance"] + otherGroups, []))
  {
    var p := Principal("bob", ["finance"] + otherGroups, []);
    SelfMatch(re, "finance");
    assert p.groups[0] == "finance";
  }

  // ---------------------------------------------------------------------
  // The structured document
  // ---------------------------------------------------------------------

  /** A decoded JSON document; objects are maps, since key order does not
      affect dictionary equality. */
  datatype Json =
    | JNull
    | JBool(b: bool)
    | JNum(n: int)
    | JStr(s: string)
    | JArr(items: seq<Json>)
    | JObj(fields: map<string, Json>)

  /** No field of the object is null. */
  predicate NoNullFields(o: map<string, Json>) {
    forall k :: k in o ==> o[k] != JNull
  }

  function AllowName(a: Allow): string {
    match a
    case AllowAll => "all"
    case AllowReadOnly => "read-only"
    case AllowNone => "none"
  }

  /** Emits `key` only when the optional value is set. */
  function PutOpt(o: map<string, Json>, key: string, v: Option<string>): map<string, Json> {
    if v.Some? then o[key := JStr(v.value)] else o
  }

  /** Adds the identity fields that are set to a rule object. */
  function PutIdentity(o: map<string, Json>, user: Option<string>, group: Option<string>,
                       role: Option<string>): (r: map<string, Json>)
    requires "user" !in o && "group" !in o && "role" !in o
    requires NoNullFields(o)
    ensures NoNullFields(r)
    ensures ("user" in r <==> user.Some?) && ("group" in r <==> group.Some?) && ("role" in r <==> role.Some?)
    ensures forall k :: k in o ==> k in r && r[k] == o[k]
    ensures OptStr(r, "user") == Success(user)
    ensures OptStr(r, "group") == Success(group)
    ensures OptStr(r, "role") == Success(role)
  {
    PutOpt(PutOpt(PutOpt(o, "user", user), "group", group), "role", role)
  }

  // Encoders: `model_dump(exclude_none=True)` of one rule.

  function EncodeCatalogRule(r: CatalogRule): (j: Json)
    ensures j.JObj? && NoNullFields(j.fields)
    ensures ("user" in j.fields <==> r.user.Some?) && ("group" in j.fields <==> r.group.Some?)
    ensures "role" in j.fields <==> r.role.Some?
  {
    JObj(PutIdentity(map["catalog" := JStr(r.catalog), "allow" := JStr(AllowName(r.allow))],
                     r.user, r.group, r.role))
  }

  function EncodeSchemaRule(r: SchemaRule): (j: Json)
    ensures j.JObj? && NoNullFields(j.fields)
    ensures ("user" in j.fields <==> r.user.Some?) && ("group" in j.fields <==> r.group.Some?)
    ensures "role" in j.fields <==> r.role.Some?
  {
    JObj(PutIdentity(map["catalog" := JStr(r.catalog), "schema" := JStr(r.schema),
                         "owner" := JBool(r.owner)],
                     r.user, r.group, r.role))
  }

  function EncodeTableRule(r: TableRule): (j: Json)
    ensures j.JObj? && NoNullFields(j.fields)
    ensures ("user" in j.fields <==> r.user.Some?) && ("group" in j.fields <==> r.group.Some?)
    ensures "role" in j.fields <==> r.role.Some?
  {
    JObj(PutIdentity(map["catalog" := JStr(r.catalog), "schema" := JStr(r.schema),
                         "table" := JStr(r.table), "privileges" := JArr(EncodeStrings(r.privileges))],
                     r.user, r.group, r.role))
  }

  function EncodeFunctionRule(r: FunctionRule): (j: Json)
    ensures j.JObj? && NoNullFields(j.fields)
    ensures ("user" in j.fields <==> r.user.Some?) && ("group" in j.fields <==> r.group.Some?)
    ensures "role" in j.fields <==> r.role.Some?
  {
    JObj(PutIdentity(map["catalog" := JStr(r.catalog), "function" := JStr(r.functionName),
                         "execute" := JBool(r.execute)],
                     r.user, r.group, r.role))
  }

  function EncodeProcedureRule(r: ProcedureRule): (j: Json)
    ensures j.JObj? && NoNullFields(j.fields)
    ensures ("user" in j.fields <==> r.user.Some?) && ("group" in j.fields <==> r.group.Some?)
    ensures "role" in j.fields <==> r.role.Some?
  {
    JObj(PutIdentity(map["catalog" := JStr(r.catalog), "procedure" := JStr(r.procedure),
                         "execute" := JBool(r.execute)],
                     r.user, r.group, r.role))
  }

  function EncodeSessionPropertyRule(r: SessionPropertyRule): (j: Json)
    ensures j.JObj? && NoNullFields(j.fields)
    ensures ("user" in j.fields <==> r.user.Some?) && ("group" in j.fields <==> r.group.Some?)
    ensures "role" in j.fields <==> r.role.Some?
    ensures "catalog" in j.fields <==> r.catalog.Some?
  {
    JObj(PutIdentity(PutOpt(map["property" := JStr(r.property), "allow" := JBool(r.allow)],
                            "catalog", r.catalog),
                     r.user, r.group, r.role))
  }

  function EncodeQueryRule(r: QueryRule): (j: Json)
    ensures j.JObj? && NoNullFields(j.fields)
    ensures ("user" in j.fields <==> r.user.Some?) && ("group" in j.fields <==> r.group.Some?)
    ensures "role" in j.fields <==> r.role.Some?
    ensures "query" in j.fields <==> r.query.Some?
  {
    JObj(PutIdentity(PutOpt(map["allow" := JBool(r.allow)], "query", r.query),
                     r.user, r.group, r.role))
  }

  function EncodeSystemInformationRule(r: SystemInformationRule): (j: Json)
    ensures j.JObj? && NoNullFields(j.fields)
    ensures ("user" in j.fields <==> r.user.Some?) && ("group" in j.fields <==> r.group.Some?)
    ensures "role" in j.fields <==> r.role.Some?
  {
    JObj(PutIdentity(map["allow" := JBool(r.allow)], r.user, r.group, r.role))
  }

  function EncodeImpersonationRule(r: ImpersonationRule): (j: Json)
    ensures j.JObj? && NoNullFields(j.fields)
    ensures j.fields.Keys == {"principal", "user", "allow"}
  {
    JObj(map["principal" := JStr(r.principal), "user" := JStr(r.user), "allow" := JBool(r.allow)])
  }

  function EncodeStrings(xs: seq<string>): (r: seq<Json>)
    ensures |r| == |xs| && forall i :: 0 <= i < |xs| ==> r[i] == JStr(xs[i])
  {
    if xs == [] then [] else [JStr(xs[0])] + EncodeStrings(xs[1..])
  }

  function EncodeAll<T>(xs: seq<T>, enc: T -> Json): (r: seq<Json>)
    ensures |r| == |xs| && forall i :: 0 <= i < |xs| ==> r[i] == enc(xs[i])
  {
    if xs == [] then [] else [enc(xs[0])] + EncodeAll(xs[1..], enc)
  }

  /** The nine top-level keys of an unwrapped document. */
  const RULE_SET_KEYS: set<string> :=
    {"catalogs", "schemas", "tables", "functions", "procedures",
     "session_properties", "queries", "system_information", "impersonation"}

  function DumpRuleSet(rs: RuleSet): (j: Json)
    ensures j.JObj?
  {
    JObj(map[
      "catalogs" := JArr(EncodeAll(rs.catalogs, EncodeCatalogRule)),
      "schemas" := JArr(EncodeAll(rs.schemas, EncodeSchemaRule)),
      "tables" := JArr(EncodeAll(rs.tables, EncodeTableRule)),
      "functions" := JArr(EncodeAll(rs.functions, EncodeFunctionRule)),
      "procedures" := JArr(EncodeAll(rs.procedures, EncodeProcedureRule)),
      "session_properties" := JArr(EncodeAll(rs.sessionProperties, EncodeSessionPropertyRule)),
      "queries" := JArr(EncodeAll(rs.queries, EncodeQueryRule)),
      "system_information" := JArr(EncodeAll(rs.systemInformation, EncodeSystemInformationRule)),
      "impersonation" := JArr(EncodeAll(rs.impersonation, EncodeImpersonationRule))])
  }

  /** `dump_rules`: the rule set as a document, inside a `data` envelope
      when `wrap` is set. */
  function DumpRules(rs: RuleSet, wrap: bool): (j: Json)
    ensures j.JObj?
    ensures wrap ==> j.fields.Keys == {"data"} && j.fields["data"] == DumpRules(rs, false)
  {
    if wrap then JObj(map["data" := DumpRuleSet(rs)]) else DumpRuleSet(rs)
  }

  // Decoders: validation of one field, as `AccessControlRules(**data)` does it.

  /** An optional string field: absent or null is None. */
  function OptStr(o: map<string, Json>, key: string): Result<Option<string>> {
    if key !in o then Success(None)
    else match o[key]
      case JNull => Success(None)
      case JStr(s) => Success(Some(s))
      case _ => Failure("invalid optional string field " + key)
  }

  /** A required string field. */
  function ReqStr(o: map<string, Json>, key: string): (r: Result<string>)
    ensures r.Success? <==> key in o && o[key].JStr?
  {
    if key in o && o[key].JStr? then Success(o[key].s)
    else Failure("missing or invalid string field " + key)
  }

  /** A boolean field with a default: a JSON boolean, or the integers 0 and 1. */
  function BoolOr(o: map<string, Json>, key: string, default: bool): Result<bool> {
    if key !in o then Success(default)
    else match o[key]
      case JBool(b) => Success(b)
      case JNum(n) => if n == 0 then Success(false) else if n == 1 then Success(true)
                      else Failure("invalid boolean field " + key)
      case _ => Failure("invalid boolean field " + key)
  }

  /** The catalog `allow` literal, "none" when absent. */
  function AllowOr(o: map<string, Json>, key: string): (r: Result<Allow>)
    ensures key !in o ==> r == Success(AllowNone)
    ensures r.Success? && key in o ==> o[key] == JStr(AllowName(r.value))
  {
    if key !in o then Success(AllowNone)
    else match o[key]
      case JStr(s) =>
        if s == "all" then Success(AllowAll)
        else if s == "read-only" then Success(AllowReadOnly)
        else if s == "none" then Success(AllowNone)
        else Failure("invalid allow value")
      case _ => Failure("invalid allow value")
  }

  /** A list of privilege literals; any other token fails validation. */
  function DecodePrivileges(items: seq<Json>): (r: Result<seq<string>>)
    ensures r.Success? ==> |r.value| == |items| && forall p :: p in r.value ==> IsPrivilege(p)
    ensures r.Success? <==> forall i :: 0 <= i < |items| ==> items[i].JStr? && IsPrivilege(items[i].s)
    ensures r.Success? ==> forall i :: 0 <= i < |items| ==> r.value[i] == items[i].s
  {
    if items == [] then Success([])
    else if items[0].JStr? && IsPrivilege(items[0].s) then
      var rest :- DecodePrivileges(items[1..]);
      Success([items[0].s] + rest)
    else Failure("invalid privilege")
  }

  function PrivilegesOr(o: map<string, Json>, key: string): (r: Result<seq<string>>)
    ensures r.Success? ==> forall p :: p in r.value ==> IsPrivilege(p)
  {
    if key !in o then Success([])
    else match o[key]
      case JArr(items) => DecodePrivileges(items)
      case _ => Failure("invalid privileges")
  }

  function DecodeCatalogRule(j: Json): Result<CatalogRule> {
    if !j.JObj? then Failure("rule is not an object") else
    var o := j.fields;
    var user :- OptStr(o, "user");
    var group :- OptStr(o, "group");
    var role :- OptStr(o, "role");
    var catalog :- ReqStr(o, "catalog");
    var allow :- AllowOr(o, "allow");
    Success(CatalogRule(user, group, role, catalog, allow))
  }

  function DecodeSchemaRule(j: Json): Result<SchemaRule> {
    if !j.JObj? then Failure("rule is not an object") else
    var o := j.fields;
    var user :- OptStr(o, "user");
    var group :- OptStr(o, "group");
    var role :- OptStr(o, "role");
    var catalog :- ReqStr(o, "catalog");
    var schema :- ReqStr(o, "schema");
    var owner :- BoolOr(o, "owner", false);
    Success(SchemaRule(user, group, role, catalog, schema, owner))
  }

  function DecodeTableRule(j: Json): (r: Result<TableRule>)
    ensures r.Success? ==> ValidTableRule(r.value)
  {
    if !j.JObj? then Failure("rule is not an object") else
    var o := j.fields;
    var user :- OptStr(o, "user");
    var group :- OptStr(o, "group");
    var role :- OptStr(o, "role");
    var catalog :- ReqStr(o, "catalog");
    var schema :- ReqStr(o, "schema");
    var table :- ReqStr(o, "table");
    var privileges :- PrivilegesOr(o, "privileges");
    Success(TableRule(user, group, role, catalog, schema, table, privileges))
  }

  function DecodeFunctionRule(j: Json): Result<FunctionRule> {
    if !j.JObj? then Failure("rule is not an object") else
    var o := j.fields;
    var user :- OptStr(o, "user");
    var group :- OptStr(o, "group");
    var role :- OptStr(o, "role");
    var catalog :- ReqStr(o, "catalog");
    var functionName :- ReqStr(o, "function");
    var execute :- BoolOr(o, "execute", true);
    Success(FunctionRule(user, group, role, catalog, functionName, execute))
  }

  function DecodeProcedureRule(j: Json): Result<ProcedureRule> {
    if !j.JObj? then Failure("rule is not an object") else
    var o := j.fields;
    var user :- OptStr(o, "user");
    var group :- OptStr(o, "group");
    var role :- OptStr(o, "role");
    var catalog :- ReqStr(o, "catalog");
    var procedure :- ReqStr(o, "procedure");
    var execute :- BoolOr(o, "execute", true);
    Success(ProcedureRule(user, group, role, catalog, procedure, execute))
  }

  function DecodeSessionPropertyRule(j: Json): Result<SessionPropertyRule> {
    if !j.JObj? then Failure("rule is not an object") else
    var o := j.fields;
    var user :- OptStr(o, "user");
    var group :- OptStr(o, "group");
    var role :- OptStr(o, "role");
    var catalog :- OptStr(o, "catalog");
    var property :- ReqStr(o, "property");
    var allow :- BoolOr(o, "allow", true);
    Success(SessionPropertyRule(user, group, role, catalog, property, allow))
  }

  function DecodeQueryRule(j: Json): Result<QueryRule> {
    if !j.JObj? then Failure("rule is not an object") else
    var o := j.fields;
    var user :- OptStr(o, "user");
    var group :- OptStr(o, "group");
    var role :- OptStr(o, "role");
    var query :- OptStr(o, "query");
    var allow :- BoolOr(o, "allow", true);
    Success(QueryRule(user, group, role, query, allow))
  }

  function DecodeSystemInformationRule(j: Json): Result<SystemInformationRule> {
    if !j.JObj? then Failure("rule is not an object") else
    var o := j.fields;
    var user :- OptStr(o, "user");
    var group :- OptStr(o, "group");
    var role :- OptStr(o, "role");
    var allow :- BoolOr(o, "allow", true);
    Success(SystemInformationRule(user, group, role, allow))
  }

  function DecodeImpersonationRule(j: Json): Result<ImpersonationRule> {
    if !j.JObj? then Failure("rule is not an object") else
    var o := j.fields;
    var principal :- ReqStr(o, "principal");
    var user :- ReqStr(o, "user");
    var allow :- BoolOr(o, "allow", true);
    Success(ImpersonationRule(principal, user, allow))
  }

  /** Validates every element of a list, in order; the first invalid one fails. */
  function DecodeAll<T>(items: seq<Json>, dec: Json -> Result<T>): (r: Result<seq<T>>)
    ensures r.Success? ==>
              && |r.value| == |items|
              && forall i :: 0 <= i < |items| ==> dec(items[i]) == Success(r.value[i])
  {
    if items == [] then Success([])
    else
      var x :- dec(items[0]);
      var rest :- DecodeAll(items[1..], dec);
      Success([x] + rest)
  }

  /** A list-valued field of the rule set: absent is the empty list. */
  function ListOr<T>(o: map<string, Json>, key: string, dec: Json -> Result<T>): (r: Result<seq<T>>)
    ensures r.Success? && key in o ==>
              && o[key].JArr?
              && |r.value| == |o[key].items|
              && forall i :: 0 <= i < |r.value| ==> dec(o[key].items[i]) == Success(r.value[i])
  {
    if key !in o then Success([])
    else match o[key]
      case JArr(items) => DecodeAll(items, dec)
      case _ => Failure("invalid list field " + key)
  }

  /** `AccessControlRules(**data)`: unknown keys are ignored, absent lists are empty. */
  function DecodeRuleSet(j: Json): (r: Result<RuleSet>)
    ensures r.Success? ==> ValidRuleSet(r.value)
  {
    if !j.JObj? then Failure("rule set is not an object") else
    var o := j.fields;
    var catalogs :- ListOr(o, "catalogs", DecodeCatalogRule);
    var schemas :- ListOr(o, "schemas", DecodeSchemaRule);
    var tables :- ListOr(o, "tables", DecodeTableRule);
    var functions :- ListOr(o, "functions", DecodeFunctionRule);
    var procedures :- ListOr(o, "procedures", DecodeProcedureRule);
    var sessionProperties :- ListOr(o, "session_properties", DecodeSessionPropertyRule);
    var queries :- ListOr(o, "queries", DecodeQueryRule);
    var systemInformation :- ListOr(o, "system_information", DecodeSystemInformationRule);
    var impersonation :- ListOr(o, "impersonation", DecodeImpersonationRule);
    Success(RuleSet(catalogs, schemas, tables, functions, procedures, sessionProperties,
                    queries, systemInformation, impersonation))
  }

  /** `load_rules`: the value under `data` when that key exists, otherwise
      the document itself, validated as a rule set. */
  function LoadRules(doc: Json): (r: Result<RuleSet>)
    ensures !doc.JObj? ==> r.Failure?
    ensures r.Success? ==> ValidRuleSet(r.value)
    ensures doc.JObj? && "data" in doc.fields ==> r == DecodeRuleSet(doc.fields["data"])
    ensures doc.JObj? && "data" !in doc.fields ==> r == DecodeRuleSet(doc)
  {
    if !doc.JObj? then Failure("document is not an object")
    else DecodeRuleSet(if "data" in doc.fields then doc.fields["data"] else doc)
  }

  // ---------------------------------------------------------------------
  // Properties of load and dump
  // ---------------------------------------------------------------------

  /** Fields left out of a catalog, schema or table rule take the declared
      defaults: `allow` "none", `owner` false, no privileges, no identity
      patterns; a rule without its required catalog fails. */
  lemma ScopeRuleDefaults(c: string, s: string, t: string)
    ensures DecodeCatalogRule(JObj(map["catalog" := JStr(c)]))
         == Success(CatalogRule(None, None, None, c, AllowNone))
    ensures DecodeSchemaRule(JObj(map["catalog" := JStr(c), "schema" := JStr(s)]))
         == Success(SchemaRule(None, None, None, c, s, false))
    ensures DecodeTableRule(JObj(map["catalog" := JStr(c), "schema" := JStr(s), "table" := JStr(t)]))
         == Success(TableRule(None, None, None, c, s, t, []))
    ensures DecodeCatalogRule(JObj(map[])).Failure?
  {
  }

  /** Fields left out of the other rule kinds take the declared defaults:
      `execute` and `allow` true, every optional field None; impersonation
      without its required `user` fails. */
  lemma OtherRuleDefaults(c: string, f: string, prop: string, who: string, u: string)
    ensures DecodeFunctionRule(JObj(map["catalog" := JStr(c), "function" := JStr(f)]))
         == Success(FunctionRule(None, None, None, c, f, true))
    ensures DecodeProcedureRule(JObj(map["catalog" := JStr(c), "procedure" := JStr(f)]))
         == Success(ProcedureRule(None, None, None, c, f, true))
    ensures DecodeSessionPropertyRule(JObj(map["property" := JStr(prop)]))
         == Success(SessionPropertyRule(None, None, None, None, prop, true))
    ensures DecodeQueryRule(JObj(map[])) == Success(QueryRule(None, None, None, None, true))
    ensures DecodeSystemInformationRule(JObj(map[])) == Success(SystemInformationRule(None, None, None, true))
    ensures DecodeImpersonationRule(JObj(map["principal" := JStr(who), "user" := JStr(u)]))
         == Success(ImpersonationRule(who, u, true))
    ensures DecodeImpersonationRule(JObj(map["principal" := JStr(who)])).Failure?
  {
  }

  /** `AccessControlRules()` with no arguments is `AccessControlRules.empty()`;
      an empty document, bare or wrapped, loads as it. */
  lemma EmptyDocumentLoadsEmpty()
    ensures LoadRules(JObj(map[])) == Success(Empty())
    ensures LoadRules(JObj(map["data" := JObj(map[])])) == Success(Empty())
  {
  }

  /** With a `data` key, every other top-level key is ignored. */
  lemma EnvelopeIgnoresOtherKeys(o1: map<string, Json>, o2: map<string, Json>)
    requires "data" in o1 && "data" in o2 && o1["data"] == o2["data"]
    ensures LoadRules(JObj(o1)) == LoadRules(JObj(o2))
  {
  }

  lemma {:induction false} PrivilegesRoundTrip(ps: seq<string>)
    requires forall p :: p in ps ==> IsPrivilege(p)
    ensures DecodePrivileges(EncodeStrings(ps)) == Success(ps)
  {
    if ps != [] {
      PrivilegesRoundTrip(ps[1..]);
      assert EncodeStrings(ps)[1..] == EncodeStrings(ps[1..]);
      assert [ps[0]] + ps[1..] == ps;
    }
  }

  lemma CatalogRuleRoundTrip(r: CatalogRule)
    ensures DecodeCatalogRule(EncodeCatalogRule(r)) == Success(r)
  {
    var o := EncodeCatalogRule(r).fields;
    assert OptStr(o, "user") == Success(r.user);
    assert OptStr(o, "group") == Success(r.group);
    assert OptStr(o, "role") == Success(r.role);
    assert ReqStr(o, "catalog") == Success(r.catalog);
    assert AllowOr(o, "allow") == Success(r.allow);
  }

  lemma SchemaRuleRoundTrip(r: SchemaRule)
    ensures DecodeSchemaRule(EncodeSchemaRule(r)) == Success(r)
  {
    var o := EncodeSchemaRule(r).fields;
    assert OptStr(o, "user") == Success(r.user);
    assert OptStr(o, "group") == Success(r.group);
    assert OptStr(o, "role") == Success(r.role);
    assert ReqStr(o, "catalog") == Success(r.catalog);
    assert ReqStr(o, "schema") == Success(r.schema);
    assert BoolOr(o, "owner", false) == Success(r.owner);
  }

  lemma TableRuleRoundTrip(r: TableRule)
    requires ValidTableRule(r)
    ensures DecodeTableRule(EncodeTableRule(r)) == Success(r)
  {
    var o := EncodeTableRule(r).fields;
    assert OptStr(o, "user") == Success(r.user);
    assert OptStr(o, "group") == Success(r.group);
    assert OptStr(o, "role") == Success(r.role);
    assert ReqStr(o, "catalog") == Success(r.catalog);
    assert ReqStr(o, "schema") == Success(r.schema);
    assert ReqStr(o, "table") == Success(r.table);
    assert o["privileges"] == JArr(EncodeStrings(r.privileges));
    PrivilegesRoundTrip(r.privileges);
    assert PrivilegesOr(o, "privileges") == Success(r.privileges);
  }

  lemma FunctionRuleRoundTrip(r: FunctionRule)
    ensures DecodeFunctionRule(EncodeFunctionRule(r)) == Success(r)
  {
    var o := EncodeFunctionRule(r).fields;
    assert OptStr(o, "user") == Success(r.user);
    assert OptStr(o, "group") == Success(r.group);
    assert OptStr(o, "role") == Success(r.role);
    assert ReqStr(o, "catalog") == Success(r.catalog);
    assert ReqStr(o, "function") == Success(r.functionName);
    assert BoolOr(o, "execute", true) == Success(r.execute);
  }

  lemma ProcedureRuleRoundTrip(r: ProcedureRule)
    ensures DecodeProcedureRule(EncodeProcedureRule(r)) == Success(r)
  {
    var o := EncodeProcedureRule(r).fields;
    assert OptStr(o, "user") == Success(r.user);
    assert OptStr(o, "group") == Success(r.group);
    assert OptStr(o, "role") == Success(r.role);
    assert ReqStr(o, "catalog") == Success(r.catalog);
    assert ReqStr(o, "procedure") == Success(r.procedure);
    assert BoolOr(o, "execute", true) == Success(r.execute);
  }

  lemma SessionPropertyRuleRoundTrip(r: SessionPropertyRule)
    ensures DecodeSessionPropertyRule(EncodeSessionPropertyRule(r)) == Success(r)
  {
    var o := EncodeSessionPropertyRule(r).fields;
    assert OptStr(o, "user") == Success(r.user);
    assert OptStr(o, "group") == Success(r.group);
    assert OptStr(o, "role") == Success(r.role);
    assert OptStr(o, "catalog") == Success(r.catalog);
    assert ReqStr(o, "property") == Success(r.property);
    assert BoolOr(o, "allow", true) == Success(r.allow);
  }

  lemma QueryRuleRoundTrip(r: QueryRule)
    ensures DecodeQueryRule(EncodeQueryRule(r)) == Success(r)
  {
    var o := EncodeQueryRule(r).fields;
    assert OptStr(o, "user") == Success(r.user);
    assert OptStr(o, "group") == Success(r.group);
    assert OptStr(o, "role") == Success(r.role);
    assert OptStr(o, "query") == Success(r.query);
    assert BoolOr(o, "allow", true) == Success(r.allow);
  }

  lemma SystemInformationRuleRoundTrip(r: SystemInformationRule)
    ensures DecodeSystemInformationRule(EncodeSystemInformationRule(r)) == Success(r)
  {
    var o := EncodeSystemInformationRule(r).fields;
    assert OptStr(o, "user") == Success(r.user);
    assert OptStr(o, "group") == Success(r.group);
    assert OptStr(o, "role") == Success(r.role);
    assert BoolOr(o, "allow", true) == Success(r.allow);
  }

  lemma ImpersonationRuleRoundTrip(r: ImpersonationRule)
    ensures DecodeImpersonationRule(EncodeImpersonationRule(r)) == Success(r)
  {
    var o := EncodeImpersonationRule(r).fields;
    assert ReqStr(o, "principal") == Success(r.principal);
    assert ReqStr(o, "user") == Success(r.user);
    assert BoolOr(o, "allow", true) == Success(r.allow);
  }

  /** Decoding an encoded list gives back the list, in order, when every
      element round-trips. */
  lemma {:induction false} ListRoundTrip<T>(xs: seq<T>, enc: T -> Json, dec: Json -> Result<T>)
    requires forall x :: x in xs ==> dec(enc(x)) == Success(x)
    ensures DecodeAll(EncodeAll(xs, enc), dec) == Success(xs)
  {
    if xs != [] {
      ListRoundTrip(xs[1..], enc, dec);
      assert EncodeAll(xs, enc)[1..] == EncodeAll(xs[1..], enc);
      assert [xs[0]] + xs[1..] == xs;
    }
  }

  /** A list field written by the dump reads back as the same list. */
  lemma ListFieldRoundTrip<T>(o: map<string, Json>, key: string, xs: seq<T>,
                              enc: T -> Json, dec: Json -> Result<T>)
    requires key in o && o[key] == JArr(EncodeAll(xs, enc))
    requires forall x :: x in xs ==> dec(enc(x)) == Success(x)
    ensures ListOr(o, key, dec) == Success(xs)
  {
    ListRoundTrip(xs, enc, dec);
  }

  /** Where the catalogs, schemas, tables lists sit in the dumped document. */
  lemma DumpedScopeFields(rs: RuleSet)
    ensures DumpRuleSet(rs).fields["catalogs"] == JArr(EncodeAll(rs.catalogs, EncodeCatalogRule))
    ensures DumpRuleSet(rs).fields["schemas"] == JArr(EncodeAll(rs.schemas, EncodeSchemaRule))
    ensures DumpRuleSet(rs).fields["tables"] == JArr(EncodeAll(rs.tables, EncodeTableRule))
  {
  }

  /** Where the functions, procedures, session_properties lists sit in the dumped document. */
  lemma DumpedRoutineFields(rs: RuleSet)
    ensures DumpRuleSet(rs).fields["functions"] == JArr(EncodeAll(rs.functions, EncodeFunctionRule))
    ensures DumpRuleSet(rs).fields["procedures"] == JArr(EncodeAll(rs.procedures, EncodeProcedureRule))
    ensures DumpRuleSet(rs).fields["session_properties"] == JArr(EncodeAll(rs.sessionProperties, EncodeSessionPropertyRule))
  {
  }

  /** Where the queries, system_information, impersonation lists sit in the dumped document. */
  lemma DumpedOtherFields(rs: RuleSet)
    ensures DumpRuleSet(rs).fields["queries"] == JArr(EncodeAll(rs.queries, EncodeQueryRule))
    ensures DumpRuleSet(rs).fields["system_information"] == JArr(EncodeAll(rs.systemInformation, EncodeSystemInformationRule))
    ensures DumpRuleSet(rs).fields["impersonation"] == JArr(EncodeAll(rs.impersonation, EncodeImpersonationRule))
  {
  }

  /** The catalog, schema and table lists of a dumped rule set decode to the original lists. */
  lemma ScopeListsRoundTrip(rs: RuleSet)
    requires ValidRuleSet(rs)
    ensures var o := DumpRuleSet(rs).fields;
      && ListOr(o, "catalogs", DecodeCatalogRule) == Success(rs.catalogs)
      && ListOr(o, "schemas", DecodeSchemaRule) == Success(rs.schemas)
      && ListOr(o, "tables", DecodeTableRule) == Success(rs.tables)
  {
    var o := DumpRuleSet(rs).fields;
    DumpedScopeFields(rs);
    forall r | r in rs.catalogs ensures DecodeCatalogRule(EncodeCatalogRule(r)) == Success(r) {
      CatalogRuleRoundTrip(r);
    }
    ListFieldRoundTrip(o, "catalogs", rs.catalogs, EncodeCatalogRule, DecodeCatalogRule);
    forall r | r in rs.schemas ensures DecodeSchemaRule(EncodeSchemaRule(r)) == Success(r) {
      SchemaRuleRoundTrip(r);
    }
    ListFieldRoundTrip(o, "schemas", rs.schemas, EncodeSchemaRule, DecodeSchemaRule);
    forall r | r in rs.tables ensures DecodeTableRule(EncodeTableRule(r)) == Success(r) {
      TableRuleRoundTrip(r);
    }
    ListFieldRoundTrip(o, "tables", rs.tables, EncodeTableRule, DecodeTableRule);
  }

  /** The function, procedure and session-property lists of a dumped rule set decode to the original lists. */
  lemma RoutineListsRoundTrip(rs: RuleSet)
    ensures var o := DumpRuleSet(rs).fields;
      && ListOr(o, "functions", DecodeFunctionRule) == Success(rs.functions)
      && ListOr(o, "procedures", DecodeProcedureRule) == Success(rs.procedures)
      && ListOr(o, "session_properties", DecodeSessionPropertyRule) == Success(rs.sessionProperties)
  {
    var o := DumpRuleSet(rs).fields;
    DumpedRoutineFields(rs);
    forall r | r in rs.functions ensures DecodeFunctionRule(EncodeFunctionRule(r)) == Success(r) {
      FunctionRuleRoundTrip(r);
    }
    ListFieldRoundTrip(o, "functions", rs.functions, EncodeFunctionRule, DecodeFunctionRule);
    forall r | r in rs.procedures ensures DecodeProcedureRule(EncodeProcedureRule(r)) == Success(r) {
      ProcedureRuleRoundTrip(r);
    }
    ListFieldRoundTrip(o, "procedures", rs.procedures, EncodeProcedureRule, DecodeProcedureRule);
    forall r | r in rs.sessionProperties ensures DecodeSessionPropertyRule(EncodeSessionPropertyRule(r)) == Success(r) {
      SessionPropertyRuleRoundTrip(r);
    }
    ListFieldRoundTrip(o, "session_properties", rs.sessionProperties, EncodeSessionPropertyRule, DecodeSessionPropertyRule);
  }

  /** The query, system-information and impersonation lists of a dumped rule set decode to the original lists. */
  lemma OtherListsRoundTrip(rs: RuleSet)
    ensures var o := DumpRuleSet(rs).fields;
      && ListOr(o, "queries", DecodeQueryRule) == Success(rs.queries)
      && ListOr(o, "system_information", DecodeSystemInformationRule) == Success(rs.systemInformation)
      && ListOr(o, "impersonation", DecodeImpersonationRule) == Success(rs.impersonation)
  {
    var o := DumpRuleSet(rs).fields;
    DumpedOtherFields(rs);
    forall r | r in rs.queries ensures DecodeQueryRule(EncodeQueryRule(r)) == Success(r) {
      QueryRuleRoundTrip(r);
    }
    ListFieldRoundTrip(o, "queries", rs.queries, EncodeQueryRule, DecodeQueryRule);
    forall r | r in rs.systemInformation ensures DecodeSystemInformationRule(EncodeSystemInformationRule(r)) == Success(r) {
      SystemInformationRuleRoundTrip(r);
    }
    ListFieldRoundTrip(o, "system_information", rs.systemInformation, EncodeSystemInformationRule, DecodeSystemInformationRule);
    forall r | r in rs.impersonation ensures DecodeImpersonationRule(EncodeImpersonationRule(r)) == Success(r) {
      ImpersonationRuleRoundTrip(r);
    }
    ListFieldRoundTrip(o, "impersonation", rs.impersonation, EncodeImpersonationRule, DecodeImpersonationRule);
  }

  /** Loading a dumped rule set, wrapped or not, gives back the same rule
      set with every list in the same order. */
  lemma LoadDumpRoundTrip(rs: RuleSet, wrap: bool)
    requires ValidRuleSet(rs)
    ensures LoadRules(DumpRules(rs, wrap)) == Success(rs)
  {
    DecodeDumpRoundTrip(rs);
    assert "data" !in DumpRuleSet(rs).fields by {
      DumpedKeys(rs);
    }
  }

  /** The unwrapped document decodes to the rule set it was dumped from. */
  lemma DecodeDumpRoundTrip(rs: RuleSet)
    requires ValidRuleSet(rs)
    ensures DecodeRuleSet(DumpRuleSet(rs)) == Success(rs)
  {
    ScopeListsRoundTrip(rs);
    RoutineListsRoundTrip(rs);
    OtherListsRoundTrip(rs);
    DecodeFromLists(DumpRuleSet(rs).fields, rs);
  }

  /** A document whose nine list fields each decode to the matching list
      of `rs` decodes to `rs`. */
  lemma DecodeFromLists(o: map<string, Json>, rs: RuleSet)
    requires ListOr(o, "catalogs", DecodeCatalogRule) == Success(rs.catalogs)
    requires ListOr(o, "schemas", DecodeSchemaRule) == Success(rs.schemas)
    requires ListOr(o, "tables", DecodeTableRule) == Success(rs.tables)
    requires ListOr(o, "functions", DecodeFunctionRule) == Success(rs.functions)
    requires ListOr(o, "procedures", DecodeProcedureRule) == Success(rs.procedures)
    requires ListOr(o, "session_properties", DecodeSessionPropertyRule) == Success(rs.sessionProperties)
    requires ListOr(o, "queries", DecodeQueryRule) == Success(rs.queries)
    requires ListOr(o, "system_information", DecodeSystemInformationRule) == Success(rs.systemInformation)
    requires ListOr(o, "impersonation", DecodeImpersonationRule) == Success(rs.impersonation)
    ensures DecodeRuleSet(JObj(o)) == Success(rs)
  {
  }

  /** An unwrapped dump has exactly the nine list keys, every one present
      even when its list is empty, and so no `data` key. */
  lemma DumpedKeys(rs: RuleSet)
    ensures DumpRules(rs, false).fields.Keys == RULE_SET_KEYS
    ensures "data" !in DumpRules(rs, false).fields
  {
  }

  /** Dumping is stable across a load: dump(load(dump(r))) == dump(r). */
  lemma DumpLoadDumpStable(rs: RuleSet, wrap: bool)
    requires ValidRuleSet(rs)
    ensures LoadRules(DumpRules(rs, wrap)).Success?
    ensures DumpRules(LoadRules(DumpRules(rs, wrap)).value, wrap) == DumpRules(rs, wrap)
  {
    LoadDumpRoundTrip(rs, wrap);
  }
}
