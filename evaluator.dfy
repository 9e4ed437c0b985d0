/** Scope evaluators and the effective-access composer (acl/evaluator.py). */
module Evaluator {
  import opened Wrappers
  import opened Models
  import opened Patterns
  import opened Parser

  /** Every privilege, in declared order. */
  const PRIVS: seq<string> :=
    ["SELECT", "INSERT", "DELETE", "UPDATE", "OWNERSHIP", "GRANT_SELECT", "CREATE_VIEW"]

  /** `PRIVS` lists each member of the `Privilege` literal exactly once. */
  lemma PrivsAreThePrivilegeLiteral()
    ensures forall p :: p in PRIVS <==> IsPrivilege(p)
    ensures |PRIVS| == 7 && forall i, j :: 0 <= i < j < |PRIVS| ==> PRIVS[i] != PRIVS[j]
  {
  }

  // ---------------------------------------------------------------------
  // Decisions
  // ---------------------------------------------------------------------

  datatype CatalogDecision = CatalogDecision(matchedRule: Option<CatalogRule>, allow: Allow,
                                             allowedPrivileges: seq<string>)

  datatype SchemaDecision = SchemaDecision(matchedRule: Option<SchemaRule>, owner: bool)

  datatype TableDecision = TableDecision(matchedRule: Option<TableRule>, privileges: seq<string>)

  /** The `effective_access` result: `schema` and `table` are the keys that
      may be missing. */
  datatype Access = Access(catalog: CatalogDecision, schema: Option<SchemaDecision>,
                           table: Option<TableDecision>, visible: bool)

  /** `a` keeps some of the elements of `b`, in their order in `b`. */
  predicate IsSubsequence(a: seq<string>, b: seq<string>) {
    if a == [] then true
    else if b == [] then false
    else if a[0] == b[0] then IsSubsequence(a[1..], b[1..])
    else IsSubsequence(a, b[1..])
  }

  /** The privileges granted with a catalog's `allow` level. */
  function AllowedPrivileges(allow: Allow): (r: seq<string>)
    ensures IsSubsequence(r, PRIVS)
    ensures r == [] <==> allow == AllowNone
    ensures "SELECT" in r <==> allow != AllowNone
    ensures allow == AllowAll ==> r == PRIVS
    ensures allow == AllowReadOnly ==> r == ["SELECT", "CREATE_VIEW"]
  {
    match allow
    case AllowAll => PRIVS
    case AllowReadOnly => ["SELECT", "CREATE_VIEW"]
    case AllowNone => []
  }

  /** `[p for p in privileges if p in PRIVS]`. */
  function FilterPrivileges(ps: seq<string>): (r: seq<string>)
    ensures forall p :: p in r ==> p in PRIVS
    ensures IsSubsequence(r, ps)
    ensures forall p :: p in PRIVS ==> multiset(r)[p] == multiset(ps)[p]
    ensures (forall p :: p in ps ==> p in PRIVS) ==> r == ps
  {
    if ps == [] then []
    else
      var rest := FilterPrivileges(ps[1..]);
      assert ps == [ps[0]] + ps[1..];
      if ps[0] in PRIVS then [ps[0]] + rest else rest
  }

  // ---------------------------------------------------------------------
  // First match
  // ---------------------------------------------------------------------

  /** The index of the first rule that applies, if any. */
  function FirstMatch<R>(rules: seq<R>, applies: R -> bool): (r: Option<nat>)
    ensures r.Some? ==> r.value < |rules| && applies(rules[r.value])
    ensures r.Some? ==> forall j :: 0 <= j < r.value ==> !applies(rules[j])
    ensures r.None? <==> forall j :: 0 <= j < |rules| ==> !applies(rules[j])
  {
    if rules == [] then None
    else if applies(rules[0]) then Some(0)
    else match FirstMatch(rules[1..], applies)
      case None => None
      case Some(i) => Some(i + 1)
  }

  /** Rules after the first applicable one are never consulted; when no
      rule of `pre` applies, the scan goes on into `post`. */
  lemma {:induction false} FirstMatchAppend<R>(pre: seq<R>, post: seq<R>, applies: R -> bool)
    ensures FirstMatch(pre, applies).Some? ==> FirstMatch(pre + post, applies) == FirstMatch(pre, applies)
    ensures FirstMatch(pre, applies).None? ==>
      FirstMatch(pre + post, applies) ==
        match FirstMatch(post, applies)
        case None => None
        case Some(k) => Some(|pre| + k)
  {
    if pre == [] {
      assert pre + post == post;
    } else {
      FirstMatchAppend(pre[1..], post, applies);
      var all := pre + post;
      assert all[0] == pre[0];
      assert all[1..] == pre[1..] + post;
    }
  }

  // ---------------------------------------------------------------------
  // Catalog scope
  // ---------------------------------------------------------------------

  predicate CatalogApplies(re: RegexEngine, rule: CatalogRule, p: Principal, catalog: string) {
    MatchIdentity(re, rule.user, rule.group, rule.role, p) && Match(re, rule.catalog, catalog)
  }

  /** The catalog decision of a rule list: the first applicable rule's `allow`, else deny. */
  function CatalogDecisionFor(re: RegexEngine, rules: seq<CatalogRule>, p: Principal,
                              catalog: string): CatalogDecision
  {
    match FirstMatch(rules, rule => CatalogApplies(re, rule, p, catalog))
    case None => CatalogDecision(None, AllowNone, [])
    case Some(i) =>
      CatalogDecision(Some(rules[i]), rules[i].allow, AllowedPrivileges(rules[i].allow))
  }

  /** `eval_catalog`: a first-match scan over the catalog rules. */
  method EvalCatalog(re: RegexEngine, rules: RuleSet, p: Principal, catalog: string)
    returns (d: CatalogDecision)
    ensures d == CatalogDecisionFor(re, rules.catalogs, p, catalog)
  {
    for i := 0 to |rules.catalogs|
      invariant forall j :: 0 <= j < i ==> !CatalogApplies(re, rules.catalogs[j], p, catalog)
    {
      var rule := rules.catalogs[i];
      if !MatchIdentity(re, rule.user, rule.group, rule.role, p) {
        continue;
      }
      if Match(re, rule.catalog, catalog) {
        var allow := rule.allow;
        return CatalogDecision(Some(rule), allow, AllowedPrivileges(allow));
      }
    }
    return CatalogDecision(None, AllowNone, []);
  }

  /** The catalog decision is the first applicable rule's, and default-deny
      exactly when no rule applies; its privileges follow from `allow` alone. */
  lemma CatalogFirstMatchWins(re: RegexEngine, rules: seq<CatalogRule>, p: Principal, catalog: string)
    ensures var d := CatalogDecisionFor(re, rules, p, catalog);
      && d.allowedPrivileges == AllowedPrivileges(d.allow)
      && (d.matchedRule.None? <==> forall j :: 0 <= j < |rules| ==> !CatalogApplies(re, rules[j], p, catalog))
      && (d.matchedRule.None? ==> d.allow == AllowNone && d.allowedPrivileges == [])
      && forall i ::
           (&& 0 <= i < |rules| && CatalogApplies(re, rules[i], p, catalog)
            && forall j :: 0 <= j < i ==> !CatalogApplies(re, rules[j], p, catalog)) ==>
           d.matchedRule == Some(rules[i]) && d.allow == rules[i].allow
  {
  }

  /** Later catalog rules never change a decision an earlier rule made. */
  lemma CatalogLaterRulesIgnored(re: RegexEngine, pre: seq<CatalogRule>, post: seq<CatalogRule>,
                                 p: Principal, catalog: string)
    requires exists i :: 0 <= i < |pre| && CatalogApplies(re, pre[i], p, catalog)
    ensures CatalogDecisionFor(re, pre + post, p, catalog) == CatalogDecisionFor(re, pre, p, catalog)
  {
    var applies := rule => CatalogApplies(re, rule, p, catalog);
    FirstMatchAppend(pre, post, applies);
    var i := FirstMatch(pre, applies).value;
    assert (pre + post)[i] == pre[i];
  }

  // ---------------------------------------------------------------------
  // Schema scope
  // ---------------------------------------------------------------------

  predicate SchemaApplies(re: RegexEngine, rule: SchemaRule, p: Principal, catalog: string,
                          schema: string)
  {
    && MatchIdentity(re, rule.user, rule.group, rule.role, p)
    && Match(re, rule.catalog, catalog) && Match(re, rule.schema, schema)
  }

  /** The schema decision: the first applicable rule's `owner`, else not owner. */
  function SchemaDecisionFor(re: RegexEngine, rules: seq<SchemaRule>, p: Principal,
                             catalog: string, schema: string): SchemaDecision
  {
    match FirstMatch(rules, rule => SchemaApplies(re, rule, p, catalog, schema))
    case None => SchemaDecision(None, false)
    case Some(i) => SchemaDecision(Some(rules[i]), rules[i].owner)
  }

  /** `eval_schema`: a first-match scan needing both catalog and schema patterns. */
  method EvalSchema(re: RegexEngine, rules: RuleSet, p: Principal, catalog: string, schema: string)
    returns (d: SchemaDecision)
    ensures d == SchemaDecisionFor(re, rules.schemas, p, catalog, schema)
  {
    for i := 0 to |rules.schemas|
      invariant forall j :: 0 <= j < i ==> !SchemaApplies(re, rules.schemas[j], p, catalog, schema)
    {
      var rule := rules.schemas[i];
      if !MatchIdentity(re, rule.user, rule.group, rule.role, p) {
        continue;
      }
      if Match(re, rule.catalog, catalog) && Match(re, rule.schema, schema) {
        return SchemaDecision(Some(rule), rule.owner);
      }
    }
    return SchemaDecision(None, false);
  }

  /** The schema decision is the first applicable rule's; ownership is
      granted only by an applicable rule that says so. */
  lemma SchemaFirstMatchWins(re: RegexEngine, rules: seq<SchemaRule>, p: Principal,
                             catalog: string, schema: string)
    ensures var d := SchemaDecisionFor(re, rules, p, catalog, schema);
      && (d.matchedRule.None? <==> forall j :: 0 <= j < |rules| ==> !SchemaApplies(re, rules[j], p, catalog, schema))
      && (d.matchedRule.None? ==> !d.owner)
      && (d.owner ==> exists i :: 0 <= i < |rules| && SchemaApplies(re, rules[i], p, catalog, schema) && rules[i].owner)
      && forall i ::
           (&& 0 <= i < |rules| && SchemaApplies(re, rules[i], p, catalog, schema)
            && forall j :: 0 <= j < i ==> !SchemaApplies(re, rules[j], p, catalog, schema)) ==>
           d.matchedRule == Some(rules[i]) && d.owner == rules[i].owner
  {
  }

  // ---------------------------------------------------------------------
  // Table scope
  // ---------------------------------------------------------------------

  predicate TableApplies(re: RegexEngine, rule: TableRule, p: Principal, catalog: string,
                         schema: string, table: string)
  {
    && MatchIdentity(re, rule.user, rule.group, rule.role, p)
    && Match(re, rule.catalog, catalog) && Match(re, rule.schema, schema) && Match(re, rule.table, table)
  }

  /** The table decision: the first applicable rule's known privileges, else none. */
  function TableDecisionFor(re: RegexEngine, rules: seq<TableRule>, p: Principal,
                            catalog: string, schema: string, table: string): TableDecision
  {
    match FirstMatch(rules, rule => TableApplies(re, rule, p, catalog, schema, table))
    case None => TableDecision(None, [])
    case Some(i) => TableDecision(Some(rules[i]), FilterPrivileges(rules[i].privileges))
  }

  /** `eval_table`: a first-match scan needing all three coordinate patterns. */
  method EvalTable(re: RegexEngine, rules: RuleSet, p: Principal, catalog: string, schema: string,
                   table: string)
    returns (d: TableDecision)
    ensures d == TableDecisionFor(re, rules.tables, p, catalog, schema, table)
  {
    for i := 0 to |rules.tables|
      invariant forall j :: 0 <= j < i ==> !TableApplies(re, rules.tables[j], p, catalog, schema, table)
    {
      var rule := rules.tables[i];
      if !MatchIdentity(re, rule.user, rule.group, rule.role, p) {
        continue;
      }
      if Match(re, rule.catalog, catalog) && Match(re, rule.schema, schema) && Match(re, rule.table, table) {
        var allowed := FilterPrivileges(rule.privileges);
        return TableDecision(Some(rule), allowed);
      }
    }
    return TableDecision(None, []);
  }

  /** The table decision is the first applicable rule's; its privileges are
      always drawn from PRIVS, and are the stored list itself when the rule
      set is valid. */
  lemma TableFirstMatchWins(re: RegexEngine, rules: seq<TableRule>, p: Principal,
                            catalog: string, schema: string, table: string)
    ensures var d := TableDecisionFor(re, rules, p, catalog, schema, table);
      && (forall q :: q in d.privileges ==> q in PRIVS)
      && (d.matchedRule.None? <==> forall j :: 0 <= j < |rules| ==> !TableApplies(re, rules[j], p, catalog, schema, table))
      && (d.matchedRule.None? ==> d.privileges == [])
      && (d.matchedRule.Some? ==> IsSubsequence(d.privileges, d.matchedRule.value.privileges))
      && forall i ::
           (&& 0 <= i < |rules| && TableApplies(re, rules[i], p, catalog, schema, table)
            && forall j :: 0 <= j < i ==> !TableApplies(re, rules[j], p, catalog, schema, table)) ==>
           d.matchedRule == Some(rules[i])
  {
  }

  /** For a rule set that passed validation the filter drops nothing. */
  lemma ValidTablePrivilegesKept(re: RegexEngine, rules: seq<TableRule>, p: Principal,
                                 catalog: string, schema: string, table: string)
    requires forall t :: t in rules ==> ValidTableRule(t)
    ensures var d := TableDecisionFor(re, rules, p, catalog, schema, table);
      d.matchedRule.Some? ==> d.privileges == d.matchedRule.value.privileges
  {
    var m := FirstMatch(rules, rule => TableApplies(re, rule, p, catalog, schema, table));
    if m.Some? {
      assert rules[m.value] in rules;
      PrivsAreThePrivilegeLiteral();
    }
  }

  // ---------------------------------------------------------------------
  // Effective access
  // ---------------------------------------------------------------------

  /** The layered decision for a request: catalog always, schema when a
      schema is named, table when both schema and table are named. */
  function AccessFor(re: RegexEngine, rules: RuleSet, p: Principal, catalog: string,
                     schema: Option<string>, table: Option<string>): Access
  {
    var cat := CatalogDecisionFor(re, rules.catalogs, p, catalog);
    var sch := if Truthy(schema) then Some(SchemaDecisionFor(re, rules.schemas, p, catalog, schema.value))
               else None;
    var tbl := if Truthy(schema) && Truthy(table)
               then Some(TableDecisionFor(re, rules.tables, p, catalog, schema.value, table.value))
               else None;
    Access(cat, sch, tbl, cat.allow != AllowNone)
  }

  /** `effective_access`: fills in the result key by key. */
  method EffectiveAccess(re: RegexEngine, rules: RuleSet, p: Principal, catalog: string,
                         schema: Option<string>, table: Option<string>)
    returns (a: Access)
    ensures a == AccessFor(re, rules, p, catalog, schema, table)
    ensures a.schema.Some? <==> Truthy(schema)
    ensures a.table.Some? <==> Truthy(schema) && Truthy(table)
    ensures a.visible <==> a.catalog.allow != AllowNone
  {
    var cat := EvalCatalog(re, rules, p, catalog);
    var sch: Option<SchemaDecision> := None;
    var tbl: Option<TableDecision> := None;
    if Truthy(schema) {
      var s := EvalSchema(re, rules, p, catalog, schema.value);
      sch := Some(s);
    }
    if Truthy(schema) && Truthy(table) {
      var t := EvalTable(re, rules, p, catalog, schema.value, table.value);
      tbl := Some(t);
    }
    a := Access(cat, sch, tbl, cat.allow != AllowNone);
  }
}
