/** The scenarios of tests/test_evaluator.py, and the default-deny and
    wildcard cases. The test scenarios hold for every regular-expression
    engine that treats their literal names as matching themselves; the
    wildcard case asks only that `.*` compiles and fully matches the
    requested catalog name. */
module Scenarios {
  import opened Wrappers
  import opened Models
  import opened Patterns
  import opened Parser
  import opened Evaluator

  /** The rule set of the "select allowed" test: a read-only catalog rule
      for `hive` and a table rule for group `analyst` on hive.sales.orders. */
  function SelectAllowedRules(): RuleSet {
    RuleSet([CatalogRule(None, None, None, "hive", AllowReadOnly)], [],
            [TableRule(None, Some("analyst"), None, "hive", "sales", "orders", ["SELECT", "CREATE_VIEW"])],
            [], [], [], [], [], [])
  }

  /** bob, in group analyst, asking for hive.sales.orders: the catalog is
      read-only and visible, no schema rule makes him owner, and the table
      rule grants SELECT and CREATE_VIEW. */
  lemma SelectAllowed(re: RegexEngine)
    requires MatchesItself(re, "hive") && MatchesItself(re, "sales")
    requires MatchesItself(re, "orders") && MatchesItself(re, "analyst")
    ensures var rules := SelectAllowedRules();
      var a := AccessFor(re, rules, Bob(), "hive", Some("sales"), Some("orders"));
      && a.catalog == CatalogDecision(Some(rules.catalogs[0]), AllowReadOnly, ["SELECT", "CREATE_VIEW"])
      && a.visible
      && a.schema == Some(SchemaDecision(None, false))
      && a.table == Some(TableDecision(Some(rules.tables[0]), ["SELECT", "CREATE_VIEW"]))
      && "SELECT" in a.table.value.privileges
  {
    BobReadsHive(re);
    BobSelectsOrders(re);
    assert SchemaDecisionFor(re, [], Bob(), "hive", "sales") == SchemaDecision(None, false);
    assert Truthy(Some("sales")) && Truthy(Some("orders"));
  }

  function Bob(): Principal {
    Principal("bob", ["analyst"], [])
  }

  lemma BobReadsHive(re: RegexEngine)
    requires MatchesItself(re, "hive")
    ensures var rules := SelectAllowedRules();
      CatalogDecisionFor(re, rules.catalogs, Bob(), "hive")
        == CatalogDecision(Some(rules.catalogs[0]), AllowReadOnly, ["SELECT", "CREATE_VIEW"])
  {
    var rules := SelectAllowedRules();
    SelfMatch(re, "hive");
    assert CatalogApplies(re, rules.catalogs[0], Bob(), "hive");
    CatalogFirstMatchWins(re, rules.catalogs, Bob(), "hive");
  }

  lemma BobSelectsOrders(re: RegexEngine)
    requires MatchesItself(re, "hive") && MatchesItself(re, "sales")
    requires MatchesItself(re, "orders") && MatchesItself(re, "analyst")
    ensures var rules := SelectAllowedRules();
      TableDecisionFor(re, rules.tables, Bob(), "hive", "sales", "orders")
        == TableDecision(Some(rules.tables[0]), ["SELECT", "CREATE_VIEW"])
  {
    var rules := SelectAllowedRules();
    SelfMatch(re, "hive");
    SelfMatch(re, "sales");
    SelfMatch(re, "orders");
    SelfMatch(re, "analyst");
    assert AnyMatch(re, "analyst", Bob().groups);
    assert TableApplies(re, rules.tables[0], Bob(), "hive", "sales", "orders");
    TableFirstMatchWins(re, rules.tables, Bob(), "hive", "sales", "orders");
    assert "SELECT" in PRIVS && "CREATE_VIEW" in PRIVS;
    assert FilterPrivileges(["SELECT", "CREATE_VIEW"]) == ["SELECT", "CREATE_VIEW"];
  }

  /** An empty rule set denies everything, for any principal and request. */
  lemma DefaultDeny(re: RegexEngine, p: Principal, catalog: string, schema: Option<string>,
                    table: Option<string>)
    ensures var a := AccessFor(re, Empty(), p, catalog, schema, table);
      && a.catalog == CatalogDecision(None, AllowNone, [])
      && !a.visible
      && (a.schema.Some? ==> a.schema.value == SchemaDecision(None, false))
      && (a.table.Some? ==> a.table.value == TableDecision(None, []))
  {
  }

  /** A catalog rule `.*` without identity fields decides the request for
      every catalog name `.*` fully matches, whoever asks and whatever
      follows it. */
  lemma WildcardCatalogRule(re: RegexEngine, allow: Allow, rest: seq<CatalogRule>, p: Principal,
                            catalog: string)
    requires re.compiles(".*")
    requires re.fullMatch(".*", catalog)
    ensures CatalogDecisionFor(re, [CatalogRule(None, None, None, ".*", allow)] + rest, p, catalog)
         == CatalogDecision(Some(CatalogRule(None, None, None, ".*", allow)), allow, AllowedPrivileges(allow))
  {
    var rule := CatalogRule(None, None, None, ".*", allow);
    assert CatalogApplies(re, rule, p, catalog);
    CatalogFirstMatchWins(re, [rule] + rest, p, catalog);
  }
}
