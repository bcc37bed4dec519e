/** Two hooks of the inventory router do not do what their own shape
    suggests.  Each is stated here twice: as written (in
    `InventoryRouter`) and as evidently intended, with the intended
    property proved of the corrected hook and an input on which the two
    differ. */
module RouterFindings {

  import opened Wrappers
  import opened InventoryRouter

  /** `allow_relation` as intended: allow when either object belongs to
      the inventory application, defer otherwise. */
  function AllowRelationEither(obj1: ModelMeta, obj2: ModelMeta): (r: Answer)
    ensures r == Allow <==> obj1.appLabel == InventoryAppLabel || obj2.appLabel == InventoryAppLabel
    ensures r == Allow || r == Defer
  {
    if obj1.appLabel == InventoryAppLabel || obj2.appLabel == InventoryAppLabel
    then Allow
    else Defer
  }

  /** The intended relation rule does not care which object comes first. */
  lemma AllowRelationEitherSymmetric(a: ModelMeta, b: ModelMeta)
    ensures AllowRelationEither(a, b) == AllowRelationEither(b, a)
  {
  }

  /** The rule as written and the rule as intended differ exactly when
      the first object is not an inventory object and the second is. */
  lemma AllowRelationDiffersExactly(a: ModelMeta, b: ModelMeta)
    ensures AllowRelation(a, b) != AllowRelationEither(a, b)
        <==> a.appLabel != InventoryAppLabel && b.appLabel == InventoryAppLabel
  {
  }

  /** A relation from a foreign object to an inventory object: the
      written hook defers, the intended one allows. */
  lemma AllowRelationCounterexample()
    ensures exists a: ModelMeta, b: ModelMeta ::
      AllowRelation(a, b) == Defer && AllowRelationEither(a, b) == Allow
  {
    var other := ModelMeta("other_app", "user");
    var inv := ModelMeta(InventoryAppLabel, "category");
    assert AllowRelation(other, inv) == Defer && AllowRelationEither(other, inv) == Allow;
  }

  /** `allow_migrate` as intended: inventory migrations run on the
      inventory alias and on no other alias; other applications get no
      opinion. */
  function AllowMigrateIsolated(db: string, appLabel: string, modelName: Option<string>): (r: Answer)
    ensures Truthy(r) <==> appLabel == InventoryAppLabel && db == InventoryDb
    ensures r == Defer <==> appLabel != InventoryAppLabel
    ensures appLabel == InventoryAppLabel ==> r == (if db == InventoryDb then Allow else Deny)
    ensures r != AliasAnswer(InventoryDb)
  {
    if appLabel == InventoryAppLabel then (if db == InventoryDb then Allow else Deny) else Defer
  }

  /** Both versions agree on every label except the inventory one, and on
      the inventory alias they agree about whether to migrate. */
  lemma AllowMigrateAgreement(db: string, appLabel: string, modelName: Option<string>)
    ensures appLabel != InventoryAppLabel ==>
      AllowMigrateIsolated(db, appLabel, modelName) == AllowMigrate(db, appLabel, modelName)
    ensures db == InventoryDb ==>
      (Truthy(AllowMigrateIsolated(db, appLabel, modelName)) <==> Truthy(AllowMigrate(db, appLabel, modelName)))
  {
  }

  /** As written, the inventory migrations are allowed on an alias other
      than the inventory one ("default"); the intended hook refuses them. */
  lemma AllowMigrateCounterexample()
    ensures exists db: string ::
      && db != InventoryDb
      && Truthy(AllowMigrate(db, InventoryAppLabel, None))
      && AllowMigrateIsolated(db, InventoryAppLabel, None) == Deny
  {
    assert "default" != InventoryDb;
    assert Truthy(AllowMigrate("default", InventoryAppLabel, None));
    assert AllowMigrateIsolated("default", InventoryAppLabel, None) == Deny;
  }
}
