# sale_delivery_date: a Dafny model

The Tryton module `sale_delivery_date` adds a *requested delivery date* to sale
lines. This project models the logic of its `sale.py` and proves what that logic
promises:

- when the date field is shown (`SaleLine.requested_delivery_date`, the
  `invisible` state);
- how the requested date and the shipping date are proposed by the on-change rules;
- what `SaleLine.copy` hands to the host's copy;
- how `Sale._group_shipment_key` puts the move's planned date at the front of the
  shipment grouping key;
- how `Sale.process` backfills missing dates in one batched write before the host
  processes the sales;
- how `SaleLine.__register__` migrates the legacy `manual_delivery_date` and
  `shipping_date` columns.

The host framework's own behaviour is foreign code. Each piece enters the model as
follows:

- The base `on_change_with_shipping_date` is the parameter `base: BaseShippingDate`.
- The base `copy` is the parameter `baseCopy`.
- The base `_group_shipment_key` is the `grouping` argument.
- The base `process` and `SaleLine.write` are recorded as calls (`HostCall`) in the
  order the module makes them.
- The base `__register__` is `Table.BaseRegister`, which creates the
  `requested_delivery_date` column, empty, when it is missing.

Modules:

- `Wrappers`: `Option`.
- `SaleModel`: sale, sale line, field names.
- `SaleLineDates`: visibility, on-change rules, copy defaults.
- `ShipmentKey`: the grouping key.
- `SaleProcess`: the backfill in `process`.
- `LineMigration`: the `__register__` column migration.

Two behaviours of the code are worth stating outright:

- `on_change_with_shipping_date` checks neither the product nor the quantity, so
  `ShippingDate` depends only on the moves and the stored date.
- A second `process` stages again the lines whose derived date was empty. The
  values it writes do not change (`SaleProcess.BackfillIdempotent`).

## Model

| member | source | states |
|---|---|---|
| SaleLineDates.Invisible | sale.py:50-55 | Over the line's `type` and `quantity`, the field is hidden iff the type is not "line" or the quantity is not a positive number; an unset quantity counts as 0. |
| SaleLineDates.ShippingDate | sale.py:91-96 | With moves the host's shipping date is proposed. Without moves the stored requested date is proposed, so the result is empty on the backfill path. A date comes out only when there are moves or a stored date. |
| SaleLineDates.RequestedDate | sale.py:84-89 | A stored requested date is kept. An empty one is replaced by the host's shipping date. The result is empty only when both are. With moves and no stored date it agrees with `ShippingDate`. |
| SaleLineDates.ExplicitDateWins | sale.py:84-96 | A non-empty requested date is proposed unchanged by the requested-date rule, and by the shipping-date rule when the line has no moves. |
| SaleLineDates.EmptyDateFallsBack | sale.py:84-96 | With no requested date, the requested-date rule defers to the host's shipping date. The shipping-date rule defers to the host when there are moves and is empty otherwise. With moves the two rules agree. |
| SaleLineDates.RequestedDateStable | sale.py:84-89 | Storing the proposed requested date and recomputing proposes the same date. |
| SaleLineDates.CopyDefaults | sale.py:99-102 | The defaults always hold `requested_delivery_date`. It is empty unless the caller supplied it. Every key the caller supplied is kept with its value. A missing `default` becomes the map holding only the empty requested date. |
| SaleLineDates.CopyDefaultsIdempotent | sale.py:99-102 | Completing the defaults twice gives the same map as once. |
| SaleLineDates.DefaultValues.SetDefault | sale.py:102 | `setdefault` adds the key with an empty value only when it is missing, and leaves the dictionary alone otherwise. |
| SaleLineDates.Copy | sale.py:98-103 | The caller's dictionary is completed in place. The host's copy receives the completed defaults and its result is returned. |
| ShipmentKey.GroupShipmentKey | sale.py:36-45 | The loop builds the key from the planned date followed by the host's non-planned-date entries in order. Its first entry is the planned date and no later entry is a planned date. |
| ShipmentKey.WithoutPlannedDateMembers | sale.py:41-44 | An entry survives the filter iff it is in the host's key and its field is not `planned_date`. |
| ShipmentKey.WithoutPlannedDateConcat | sale.py:41-44 | The filter preserves order: filtering a concatenation is the concatenation of the filtered parts. |
| ShipmentKey.WithoutPlannedDateIdentity | sale.py:41-44 | A key without planned-date entries passes the filter unchanged. |
| ShipmentKey.WithoutPlannedDateClean | sale.py:41-44 | No entry of the filtered key has the field `planned_date`. |
| ShipmentKey.KeyHasOnePlannedDate | sale.py:39-45 | The key starts with `('planned_date', move's planned date)`. No later entry is a planned date. The rest is exactly the host's filtered key. |
| ShipmentKey.KeysEqualIff | sale.py:39-45 | Two keys are equal iff the planned dates are equal and the host keys agree after filtering. So moves with the same host key share a shipment iff their planned dates match. |
| ShipmentKey.KeyIdempotent | sale.py:39-45 | Regrouping a produced key under the same planned date reproduces it. |
| SaleProcess.CollectWrites | sale.py:22-31 | The nested loop stages `[line]` and that line's derived-date values for exactly the lines that need a date, in sale-then-line order. |
| SaleProcess.Process | sale.py:19-34 | The host write is called once, and only when something was staged, with the staged list. The host `process` is always called last with the same sales. |
| SaleProcess.StagedInMembers | sale.py:24-26 | A line of one sale is staged iff it is a product line of type "line" with no requested date. |
| SaleProcess.StagedMembers | sale.py:23-26 | A line is staged iff it belongs to a sale of the batch and needs a date. A line that already has a date is never staged. |
| SaleProcess.StagedConcat | sale.py:23-31 | Staging follows the sales in order: a concatenated batch stages its parts one after the other. |
| SaleProcess.WriteArgsConcat | sale.py:29-31 | Extending the argument list line by line makes the list for concatenated lines the concatenation of the two lists. |
| SaleProcess.WriteArgsShape | sale.py:29-31 | The staged list has two entries per line. They alternate `[line]` and a values map whose only key is `requested_delivery_date`, holding that line's derived date. |
| SaleProcess.WrittenByArgs | sale.py:29-33 | Applying the staged arguments to a record sets its date to its derived date when it is staged, and leaves it alone otherwise. |
| SaleProcess.WriteBackfills | sale.py:25-33 | After the batched write, every line of the batch is as the backfill describes. Lines needing a date hold their derived date. Every other line is unchanged. |
| SaleProcess.BackfillIdempotent | sale.py:25-33 | Backfilling again changes no value. An explicit date is never touched. A line is staged again iff its derived date was empty. With moves the stored date is the date the on-change rule proposes. |
| LineMigration.Table.ColumnRename | sale.py:71-74 | The column moves to its new name, with its values, when the old name exists and the new one does not. |
| LineMigration.Table.BaseRegister | sale.py:76 | After the host's registration the requested date column exists. An added column is empty. |
| LineMigration.Table.CopyColumn | sale.py:78-81 | Every row's value of the source column (the shipping date) is copied into the target column (the requested date), and no other column changes. |
| LineMigration.Table.DropColumn | sale.py:82 | The named column (the shipping date) is removed, and no other column changes. |
| LineMigration.Table.Register | sale.py:57-82 | The table ends up as the migration on values describes. The decision to move shipping dates is taken before any rename. The table stays one value per row. |
| LineMigration.Migrated | sale.py:63-82 | After the upgrade the requested date column exists. An existing requested date column means nothing changes. Otherwise no legacy column survives: the shipping dates, when present, become the requested date, else the manual dates do when present. Columns other than the three date columns are neither added nor dropped. |
| LineMigration.MigratedWellFormed | sale.py:63-82 | The migration keeps every column one value per row, and the requested date column exists afterwards. |
| LineMigration.CurrentTableUntouched | sale.py:65-74 | When `requested_delivery_date` exists, nothing is renamed, copied or dropped. |
| LineMigration.MigrationRerunNoOp | sale.py:63-82 | Running the migration a second time changes nothing. |
| LineMigration.ShippingDatesMoved | sale.py:65-82 | Without a requested date column, an existing `shipping_date` ends up as the requested date with all its values, and is dropped. No `manual_delivery_date` survives. |
| LineMigration.ManualDateRenamed | sale.py:69-76 | Without a requested date or shipping date column, `manual_delivery_date` is renamed to `requested_delivery_date` with its values. No other column appears or disappears. |
| LineMigration.FreshTable | sale.py:63-82 | With no legacy column, the migration only adds an empty requested date column. |
| LineMigration.OtherColumnsKept | sale.py:63-82 | Columns other than the three delivery-date columns are never added, dropped or changed. |
| LineMigration.NoDuplicatedDates | sale.py:63-82 | When the requested date was missing, no legacy date column survives alongside it. |

## Left out

- Registration: `Pool.register` in `__init__.py` and the `PoolMeta` class patching carry no behaviour of their own.
- PYSON: `Eval`, `Bool` and `If` are not modelled as expressions. The `invisible` state is the boolean function `Invisible`.
- Quantity: quantity is a float in Tryton. It is modelled as an optional integer, so fractional quantities between 0 and 1 are not represented.
- Dates: dates are plain integers. The module only stores, copies and compares them.
- Host behaviour: the base `process`, `_group_shipment_key`, `on_change_with_shipping_date`, `copy` and `__register__` enter as parameters or recorded calls. They are not implemented.
- The `name='shipping_date'` argument of the on-change calls has no effect on the result, so it is not modelled.
- SQL: the cursor, the `UPDATE` statement and `TableHandler` are modelled only by their effect on the column map. Transactions, rollback and failures of the bulk update are not modelled.
- The `TableHandler` class is not part of this model. Its `column_rename` is assumed to rename only when the new name is free, as `Table.ColumnRename` does.
- Record identity: the effect of `SaleLine.write` is stated per line record, keyed by record id. `WriteBackfills` assumes that ids identify the lines of a batch (`IdsIdentifyLines`).
- Tests: `tests/test_sale_delivery_date.py` only installs the module. Its doctest scenario is not part of this model.
