/** Concrete runs of the discovery loop on small inventories. */
module DiscoveryScenarios {
  import opened DiscoveryProperties
  import opened Wrappers
  import opened Rds
  import opened Discovery

  const Db1 := DbInstance(Some("db1"), Some("arn:db1"), Some(Endpoint(Some("db1.example.com"), Some(5432))))
  const Db2 := DbInstance(Some("db2"), Some("arn:db2"), Some(Endpoint(Some("db2.example.com"), Some(5432))))
  const Db3 := DbInstance(Some("db3"), Some("arn:db3"), Some(Endpoint(Some("db3.example.com"), Some(3306))))
  const Entry1 := DiscoveryEntry("db1", "db1.example.com", 5432)
  const ProdOnly := Some(Parsed([ArgTag("env", "prod")]))

  /** Tags of db1: env=prod, project=foo; of db2: env=dev; db3's lookup fails; others have none. */
  function Inventory(arn: string): TagLookup {
    if arn == "arn:db1" then Listed(TagListMessage(Some([Tag(Some("env"), Some("prod")),
                                                         Tag(Some("project"), Some("foo"))])))
    else if arn == "arn:db2" then Listed(TagListMessage(Some([Tag(Some("env"), Some("dev"))])))
    else if arn == "arn:db3" then LookupFailed
    else Listed(TagListMessage(None))
  }

  /** Filtering on env=prod keeps db1 and drops db2. */
  lemma ProdFilterKeepsOnlyProd()
    ensures Run(DbInstanceMessage(Some([Db1, Db2])), ProdOnly, Inventory) == Success(DiscoveryData([Entry1]))
  {
    var dbs := [Db1, Db2];
    assert PairMatches(ProdOnly.value.pairs[0], TagsOf(Inventory("arn:db1").message));
    assert Project(Db1) == Success(Entry1);
    assert Step(Db1, ProdOnly, Inventory) == Success([Entry1]);
    assert dbs[..1] == [Db1];
    assert [Db1][..0] == [];
    assert Select([], ProdOnly, Inventory) == Success([]);
    assert [] + [Entry1] == [Entry1];
    assert Select(dbs[..1], ProdOnly, Inventory) == Success([Entry1]);
    assert Tag(Some("env"), Some("prod")) !in TagsOf(Inventory("arn:db2").message);
    assert Step(Db2, ProdOnly, Inventory) == Success([]);
    assert [Entry1] + [] == [Entry1];
  }

  /** An instance matching several filter pairs is listed once. */
  lemma SeveralMatchingPairsGiveOneEntry()
    ensures Run(DbInstanceMessage(Some([Db1])), Some(Parsed([ArgTag("env", "prod"), ArgTag("project", "foo")])),
                Inventory) == Success(DiscoveryData([Entry1]))
  {
    var tags := Some(Parsed([ArgTag("env", "prod"), ArgTag("project", "foo")]));
    assert PairMatches(tags.value.pairs[0], TagsOf(Inventory("arn:db1").message));
    assert Project(Db1) == Success(Entry1);
    assert Step(Db1, tags, Inventory) == Success([Entry1]);
    assert [Db1][..0] == [];
    assert Select([], tags, Inventory) == Success([]);
    assert [] + [Entry1] == [Entry1];
  }

  /** A failed tag lookup on the second of three instances aborts the run, although the first matched. */
  lemma LookupFailureAbortsWholeRun()
    ensures Run(DbInstanceMessage(Some([Db1, Db3, Db2])), ProdOnly, Inventory) == Failure(TagLookupFailed("arn:db3"))
  {
    var dbs := [Db1, Db3, Db2];
    assert PairMatches(ProdOnly.value.pairs[0], TagsOf(Inventory("arn:db1").message));
    assert Step(Db1, ProdOnly, Inventory).Success?;
    assert Step(Db3, ProdOnly, Inventory) == Failure(TagLookupFailed("arn:db3"));
    assert dbs[1] == Db3;
    FirstFailureAborts(dbs, 1, ProdOnly, Inventory);
  }
}
