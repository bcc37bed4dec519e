/** The database router of the inventory application, as written.

    Django asks each configured router four questions per ORM operation.
    This router has no fields, so each hook is a function of the
    application labels it is handed.  A Python hook may answer `None`
    ("no opinion, ask the next router"), `False`, `True` or, as
    `allow_migrate` does here, a string; `Answer` keeps those four apart. */
module InventoryRouter {

  import opened Wrappers

  /** The application label every inventory model is tagged with. */
  const InventoryAppLabel: string := "orm_app"

  /** The database alias the inventory application is bound to. */
  const InventoryDb: string := "inventory_db"

  /** What a hook sees of a model class or instance: its `_meta` options.
      The source reads `model.meta.app_label` in the two `db_for_*` hooks
      but `obj1._meta.app_label` in `allow_relation`; Django exposes only
      `_meta`, and this model passes the label in directly, so the
      attribute error the `db_for_*` hooks would raise is not modelled. */
  datatype ModelMeta = ModelMeta(appLabel: string, modelName: string)

  /** A Python value a permission hook can return: `None`, `False`,
      `True`, or a string. */
  datatype Answer = Defer | Deny | Allow | AliasAnswer(alias: string)

  /** Python's truth value of an answer: `None` and `False` are false,
      `True` is true, a string is true unless it is empty. */
  predicate Truthy(a: Answer) {
    match a
    case Defer => false
    case Deny => false
    case Allow => true
    case AliasAnswer(s) => |s| > 0
  }

  /** The labels this router claims, and the alias each one goes to:
      the routing table that the hooks hard-code. */
  const Routes: map<string, string> := map[InventoryAppLabel := InventoryDb]

  /** The alias the routing table gives a label, if it has one. */
  function RoutedAlias(appLabel: string): (r: Option<string>)
  {
    if appLabel in Routes then Some(Routes[appLabel]) else None
  }

  /** `db_for_read`: the inventory alias for inventory models, no opinion
      for every other label. */
  function DbForRead(model: ModelMeta): (r: Option<string>)
    ensures r.Some? <==> model.appLabel == InventoryAppLabel
    ensures r.Some? ==> r.value == InventoryDb
  {
    if model.appLabel == InventoryAppLabel then Some(InventoryDb) else None
  }

  /** `db_for_write`: the same rule as `db_for_read`. */
  function DbForWrite(model: ModelMeta): (r: Option<string>)
    ensures r.Some? <==> model.appLabel == InventoryAppLabel
    ensures r.Some? ==> r.value == InventoryDb
  {
    if model.appLabel == InventoryAppLabel then Some(InventoryDb) else None
  }

  /** `allow_relation`: the condition tests `obj1`'s label on both sides
      of its `or`, so `obj2` is never consulted.  The leading `model`
      parameter and the hints of the source are unused and left out;
      under Django's positional call `allow_relation(obj1, obj2)` that
      extra parameter would shift the arguments and leave `obj2` missing,
      which this model does not capture. */
  function AllowRelation(obj1: ModelMeta, obj2: ModelMeta): (r: Answer)
    ensures r == Allow <==> obj1.appLabel == InventoryAppLabel
    ensures r == Allow || r == Defer
  {
    if obj1.appLabel == InventoryAppLabel || obj1.appLabel == InventoryAppLabel
    then Allow
    else Defer
  }

  /** `allow_migrate`: the string "inventory_db" (truthy) for the
      inventory label, no opinion otherwise; `db` and `modelName` are read
      by nothing. */
  function AllowMigrate(db: string, appLabel: string, modelName: Option<string>): (r: Answer)
    ensures Truthy(r) <==> appLabel == InventoryAppLabel
    ensures appLabel == InventoryAppLabel ==> r == AliasAnswer(InventoryDb)
    ensures appLabel != InventoryAppLabel ==> r == Defer
  {
    if appLabel == InventoryAppLabel then AliasAnswer(InventoryDb) else Defer
  }

  // ---------------------------------------------------------------------
  // Properties of the hooks

  /** Reads follow the routing table: the inventory label goes to the
      inventory alias and every other label is deferred. */
  lemma DbForReadFollowsRoutes(model: ModelMeta)
    ensures DbForRead(model) == RoutedAlias(model.appLabel)
  {
  }

  /** Reads and writes of a model always go to the same place. */
  lemma ReadsAndWritesAgree(model: ModelMeta)
    ensures DbForWrite(model) == DbForRead(model)
  {
  }

  /** The read/write decision depends on the app label alone: two models
      with the same label, whatever their names, are routed alike. */
  lemma RoutingDependsOnlyOnLabel(m1: ModelMeta, m2: ModelMeta)
    requires m1.appLabel == m2.appLabel
    ensures DbForRead(m1) == DbForRead(m2)
    ensures DbForWrite(m1) == DbForWrite(m2)
  {
  }

  /** Reads split the labels in two: some label is routed to the inventory
      alias and some label is deferred, and nothing else can happen. */
  lemma DbForReadOutcomes()
    ensures exists m: ModelMeta :: DbForRead(m) == Some(InventoryDb)
    ensures exists m: ModelMeta :: DbForRead(m) == None
    ensures forall m: ModelMeta :: DbForRead(m) in {Some(InventoryDb), None}
  {
    assert DbForRead(ModelMeta(InventoryAppLabel, "category")) == Some(InventoryDb);
    assert DbForRead(ModelMeta("other_app", "category")) == None;
  }

  /** `obj2` never affects `allow_relation`. */
  lemma AllowRelationIgnoresObj2(obj1: ModelMeta, obj2: ModelMeta, obj2': ModelMeta)
    ensures AllowRelation(obj1, obj2) == AllowRelation(obj1, obj2')
  {
  }

  /** The outcomes of `allow_relation` are exactly `True` and `None`: both
      occur, and `False` never does. */
  lemma AllowRelationOutcomes()
    ensures exists a: ModelMeta, b: ModelMeta :: AllowRelation(a, b) == Allow
    ensures exists a: ModelMeta, b: ModelMeta :: AllowRelation(a, b) == Defer
    ensures forall a: ModelMeta, b: ModelMeta :: AllowRelation(a, b) != Deny
  {
    var inv := ModelMeta(InventoryAppLabel, "category");
    var other := ModelMeta("other_app", "user");
    assert AllowRelation(inv, other) == Allow;
    assert AllowRelation(other, inv) == Defer;
  }

  /** Because `obj2` is ignored, `allow_relation` is not symmetric. */
  lemma AllowRelationNotSymmetric()
    ensures exists a: ModelMeta, b: ModelMeta :: AllowRelation(a, b) != AllowRelation(b, a)
  {
    var inv := ModelMeta(InventoryAppLabel, "category");
    var other := ModelMeta("other_app", "user");
    assert AllowRelation(inv, other) != AllowRelation(other, inv);
  }

  /** `allow_migrate` depends on the app label alone, never on the alias
      or the model name it is asked about. */
  lemma AllowMigrateIgnoresDbAndModelName(db: string, db': string, appLabel: string,
                                          name: Option<string>, name': Option<string>)
    ensures AllowMigrate(db, appLabel, name) == AllowMigrate(db', appLabel, name')
  {
  }

  /** The outcomes of `allow_migrate` are exactly the string
      "inventory_db" and `None`: both occur, and `False` never does. */
  lemma AllowMigrateOutcomes()
    ensures exists db: string, l: string :: AllowMigrate(db, l, None) == AliasAnswer(InventoryDb)
    ensures exists db: string, l: string :: AllowMigrate(db, l, None) == Defer
    ensures forall db: string, l: string, n: Option<string> :: AllowMigrate(db, l, n) != Deny
  {
    assert AllowMigrate(InventoryDb, InventoryAppLabel, None) == AliasAnswer(InventoryDb);
    assert AllowMigrate(InventoryDb, "other_app", None) == Defer;
  }

  /** The answer for the inventory label is truthy but is not `True`:
      it is the alias string itself. */
  lemma AllowMigrateAnswersWithAlias(db: string, modelName: Option<string>)
    ensures Truthy(AllowMigrate(db, InventoryAppLabel, modelName))
    ensures AllowMigrate(db, InventoryAppLabel, modelName) != Allow
  {
  }
}
