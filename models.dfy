/** The rule records of the access-control document (acl/models.py). */
module Models {
  import opened Wrappers

  /** The three `allow` levels of a catalog rule. */
  datatype Allow = AllowAll | AllowReadOnly | AllowNone

  /** Membership in the seven-value `Privilege` literal type. */
  predicate IsPrivilege(p: string) {
    p in {"SELECT", "INSERT", "DELETE", "UPDATE", "OWNERSHIP", "GRANT_SELECT", "CREATE_VIEW"}
  }

  /* Every rule kind except impersonation carries the optional identity
     patterns `user`, `group` and `role`; target fields hold patterns. */

  datatype CatalogRule = CatalogRule(
    user: Option<string>, group: Option<string>, role: Option<string>,
    catalog: string,
    allow: Allow)

  datatype SchemaRule = SchemaRule(
    user: Option<string>, group: Option<string>, role: Option<string>,
    catalog: string, schema: string,
    owner: bool)

  /** `privileges` keeps the stored tokens as strings: the evaluator drops
      any token outside the privilege literal, so the model lets them exist. */
  datatype TableRule = TableRule(
    user: Option<string>, group: Option<string>, role: Option<string>,
    catalog: string, schema: string, table: string,
    privileges: seq<string>)

  /** The source's field `function` is a Dafny keyword; it is `functionName` here. */
  datatype FunctionRule = FunctionRule(
    user: Option<string>, group: Option<string>, role: Option<string>,
    catalog: string, functionName: string,
    execute: bool)

  datatype ProcedureRule = ProcedureRule(
    user: Option<string>, group: Option<string>, role: Option<string>,
    catalog: string, procedure: string,
    execute: bool)

  datatype SessionPropertyRule = SessionPropertyRule(
    user: Option<string>, group: Option<string>, role: Option<string>,
    catalog: Option<string>, property: string,
    allow: bool)

  datatype QueryRule = QueryRule(
    user: Option<string>, group: Option<string>, role: Option<string>,
    query: Option<string>,
    allow: bool)

  datatype SystemInformationRule = SystemInformationRule(
    user: Option<string>, group: Option<string>, role: Option<string>,
    allow: bool)

  /** Impersonation names a required `principal` and `user` and has no group or role. */
  datatype ImpersonationRule = ImpersonationRule(
    principal: string, user: string,
    allow: bool)

  /** One ordered list per rule kind; list order is precedence. */
  datatype RuleSet = RuleSet(
    catalogs: seq<CatalogRule>,
    schemas: seq<SchemaRule>,
    tables: seq<TableRule>,
    functions: seq<FunctionRule>,
    procedures: seq<ProcedureRule>,
    sessionProperties: seq<SessionPropertyRule>,
    queries: seq<QueryRule>,
    systemInformation: seq<SystemInformationRule>,
    impersonation: seq<ImpersonationRule>)

  /** `AccessControlRules.empty()`: every list empty. */
  function Empty(): (r: RuleSet)
    ensures r.catalogs == [] && r.schemas == [] && r.tables == []
    ensures r.functions == [] && r.procedures == [] && r.sessionProperties == []
    ensures r.queries == [] && r.systemInformation == [] && r.impersonation == []
    ensures ValidRuleSet(r)
  {
    RuleSet([], [], [], [], [], [], [], [], [])
  }

  /** A table rule whose privileges all belong to the `Privilege` literal,
      as validation on load guarantees. */
  predicate ValidTableRule(r: TableRule) {
    forall p :: p in r.privileges ==> IsPrivilege(p)
  }

  /** A rule set as validation on load produces it. */
  predicate ValidRuleSet(rs: RuleSet) {
    forall t :: t in rs.tables ==> ValidTableRule(t)
  }
}
