# Inventory database router

This project models `InventoryAppRouter`, the Django database router of the
inventory application (`orm_app`). Django asks a router four questions for
each ORM operation:
- which alias to read a model from;
- which alias to write it to;
- whether a relation between two objects is allowed;
- whether an application's migrations may run on an alias.

The rule its read and write hooks encode sends every read and every write
of an `orm_app` model to the alias `inventory_db`; as written those two hooks
fail before applying it (see the paragraph on `model.meta` below). It
allows a relation when the first object is an inventory object. It answers the migration question for `orm_app` with the
string `"inventory_db"`, which Python treats as true. For every other label
it returns `None`, meaning "no opinion, ask the next router".

The router has no fields, so each hook is a pure Dafny function of the labels
it is given (module `InventoryRouter`, file `inventory_router.dfy`). Python's
possible answers `None`, `False`, `True` and a string are kept apart by
`Answer = Defer | Deny | Allow | AliasAnswer(alias)`. `Truthy` is Python's
truth value of an answer. A model or object is represented by its `_meta`
options: `ModelMeta(appLabel, modelName)`.

The hooks are modelled as the code is written. Two corrected hooks for the
findings below sit in module `RouterFindings` (file `router_findings.dfy`),
next to the hooks as written.
- The source's `allow_relation` tests `obj1` on both sides of its `or`. The
  second test repeats the first word for word, so it was evidently written
  for `obj2`: allow when either object is an inventory object.
- The source's `allow_migrate` ignores `db`. Django asks this hook whether
  to migrate an application on the alias `db`. Returning the alias string
  instead of comparing `db == "inventory_db"` allows the inventory
  migrations on every alias.

The `db_for_*` hooks read `model.meta.app_label`, but Django models expose
`_meta`. As written, those two hooks would fail on the attribute lookup. The
model passes the label in directly, as `allow_relation` reads it.
Likewise, `allow_relation` declares a leading `model` parameter before
`obj1` and `obj2`. Django calls the hook positionally as
`allow_relation(obj1, obj2, **hints)`, so Django's `obj1` would land in
`model` and its `obj2` in `obj1`, and the call would raise `TypeError` for
the missing `obj2` (not executed). The model takes the two objects the
hook's body reads.

## Model

| member | source | states |
|---|---|---|
| `InventoryRouter.DbForRead` | django-iventory/routers/inventory_router.py:2-5 | the answer is an alias exactly when the label is `orm_app`, and that alias is `inventory_db`; every other label gets `None` |
| `InventoryRouter.DbForWrite` | django-iventory/routers/inventory_router.py:7-10 | the answer is an alias exactly when the label is `orm_app`, and that alias is `inventory_db`; every other label gets `None` |
| `InventoryRouter.AllowRelation` | django-iventory/routers/inventory_router.py:12-15 | the answer is `True` exactly when `obj1`'s label is `orm_app`; the only other answer is `None` |
| `InventoryRouter.AllowMigrate` | django-iventory/routers/inventory_router.py:17-20 | the answer is truthy exactly when the label is `orm_app`; for `orm_app` it is the string `"inventory_db"`, for every other label `None` |
| `InventoryRouter.DbForReadFollowsRoutes` | django-iventory/routers/inventory_router.py:2-5 | reads agree with the routing table `{orm_app: inventory_db}` for every model: listed labels go to their alias, unlisted ones are deferred |
| `InventoryRouter.ReadsAndWritesAgree` | django-iventory/routers/inventory_router.py:2-10 | for every model, writes go exactly where reads go |
| `InventoryRouter.RoutingDependsOnlyOnLabel` | django-iventory/routers/inventory_router.py:1-10 | two models with the same app label get the same read and the same write decision, whatever their model names |
| `InventoryRouter.DbForReadOutcomes` | django-iventory/routers/inventory_router.py:3-5 | some model is routed to `inventory_db`, some model is deferred, and no model gets any other answer |
| `InventoryRouter.AllowRelationIgnoresObj2` | django-iventory/routers/inventory_router.py:13 | replacing `obj2` by any other object never changes the answer |
| `InventoryRouter.AllowRelationOutcomes` | django-iventory/routers/inventory_router.py:13-15 | both `True` and `None` occur, and `False` is never returned |
| `InventoryRouter.AllowRelationNotSymmetric` | django-iventory/routers/inventory_router.py:13 | there are two objects whose answer changes when they are swapped |
| `InventoryRouter.AllowMigrateIgnoresDbAndModelName` | django-iventory/routers/inventory_router.py:17-18 | the answer is the same for every alias and every model name |
| `InventoryRouter.AllowMigrateOutcomes` | django-iventory/routers/inventory_router.py:18-20 | both `"inventory_db"` and `None` occur, and `False` is never returned |
| `InventoryRouter.AllowMigrateAnswersWithAlias` | django-iventory/routers/inventory_router.py:19 | for `orm_app` the answer is truthy on every alias, yet it is not `True` |
| `RouterFindings.AllowRelationEither` | django-iventory/routers/inventory_router.py:12-15 | corrected rule: `True` exactly when either object's label is `orm_app`, otherwise `None` |
| `RouterFindings.AllowRelationEitherSymmetric` | django-iventory/routers/inventory_router.py:13 | the corrected rule gives the same answer with the objects swapped |
| `RouterFindings.AllowRelationDiffersExactly` | django-iventory/routers/inventory_router.py:13 | the written and corrected rules differ exactly when `obj1` is not an inventory object and `obj2` is |
| `RouterFindings.AllowRelationCounterexample` | django-iventory/routers/inventory_router.py:13 | there is a pair of objects that the written rule defers and the corrected rule allows |
| `RouterFindings.AllowMigrateIsolated` | django-iventory/routers/inventory_router.py:17-20 | corrected rule: truthy exactly for `orm_app` on `inventory_db`; `orm_app` on any other alias is refused; other labels get `None` |
| `RouterFindings.AllowMigrateAgreement` | django-iventory/routers/inventory_router.py:17-20 | the written and corrected rules agree on every label other than `orm_app`, and they agree on whether to migrate on `inventory_db` |
| `RouterFindings.AllowMigrateCounterexample` | django-iventory/routers/inventory_router.py:17-19 | as written, `orm_app` migrations are allowed on alias `default`; the corrected rule refuses them |

## Findings

| source | as written | input that shows it | evidently intended | confidence | as-written member | corrected member |
|---|---|---|---|---|---|---|
| django-iventory/routers/inventory_router.py:13 | `obj1._meta.app_label == "orm_app" or obj1._meta.app_label == "orm_app"` | `obj1` labelled `other_app`, `obj2` labelled `orm_app`: answer `None` | allow when either object is labelled `orm_app` | not executed; high (the second test repeats the first word for word) | `InventoryRouter.AllowRelation`, `RouterFindings.AllowRelationCounterexample` | `RouterFindings.AllowRelationEither` |
| django-iventory/routers/inventory_router.py:17-19 | returns `"inventory_db"` for `orm_app` whatever `db` is | `db = "default"`, `app_label = "orm_app"`: truthy, so the inventory tables are also created on `default` | for `orm_app`, allow on `inventory_db` only (`db == "inventory_db"`) | not executed; medium (the returned alias string suggests the author meant to name the target database) | `InventoryRouter.AllowMigrate`, `RouterFindings.AllowMigrateCounterexample` | `RouterFindings.AllowMigrateIsolated` |

## Left out

- Python's `AttributeError` from `model.meta` in `db_for_read` and `db_for_write` (lines 3 and 8): the label is passed in directly.
- The `**hints` dictionaries of all four hooks, and the leading `model` parameter of `allow_relation`: the code never reads them. The `TypeError` that parameter would cause under Django's positional call (see above) is not modelled.
- Router chaining, Django's fallback when every router defers, and database connections: these belong to Django's runtime, which is not part of this model.
- The inventory schema (`orm_app/models.py`) and its structural tests: the model declarations are not part of this model. The tests only inspect Django field metadata.
- On-delete behaviour (protect, cascade), uniqueness and nullability: the database enforces these, not repository code.
- Determinism: every hook is a Dafny function, so the same labels always give the same answer by construction. No separate lemma states it.
