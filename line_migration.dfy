/**
  `SaleLine.__register__`: the one-time upgrade of the sale-line table. The
  table is seen as its columns, each a column name with one value per row;
  the SQL behind it is not modelled, only its effect on columns and values.
 */
module LineMigration {
  import opened Wrappers
  import opened SaleModel

  /**
    A column of the sale-line table: one (nullable) value per row. Every
    column is given date values, including the columns the upgrade never
    touches; their values are only ever kept or dropped as a whole.
   */
  type Column = seq<Option<Date>>

  /** Every column of the table holds one value per row. */
  ghost predicate WellFormed(columns: map<string, Column>, rows: nat)
  {
    forall name :: name in columns ==> |columns[name]| == rows
  }

  /** `column_rename(from, to)`: the column moves to its new name, values and all, when the new name is free. */
  function Renamed(columns: map<string, Column>, from: string, to: string): map<string, Column>
  {
    if from in columns && to !in columns then (columns - {from})[to := columns[from]] else columns
  }

  /** The host's `__register__`, reduced to what this field needs: the column exists (empty) afterwards. */
  function WithColumn(columns: map<string, Column>, name: string, rows: nat): map<string, Column>
  {
    if name in columns then columns else columns[name := seq(rows, _ => None)]
  }

  /**
    The whole upgrade on values: whether to move the shipping dates is
    decided first, then the manual date is renamed when the requested date
    is missing, then the host creates the requested date if still missing,
    and finally the shipping dates are copied into it and their column is
    dropped.
   */
  function Migrated(columns: map<string, Column>, rows: nat): (migrated: map<string, Column>)
    ensures RequestedField in migrated
    ensures RequestedField in columns ==> migrated == columns
    ensures RequestedField !in columns ==> ShippingField !in migrated && ManualField !in migrated
    ensures RequestedField !in columns && ShippingField in columns ==>
      migrated[RequestedField] == columns[ShippingField]
    ensures RequestedField !in columns && ShippingField !in columns && ManualField in columns ==>
      migrated[RequestedField] == columns[ManualField]
    ensures forall name :: name != RequestedField && name != ShippingField && name != ManualField ==>
      (name in migrated <==> name in columns)
  {
    var moveDeliveryDates := RequestedField !in columns && ShippingField in columns;
    var renamed := if ManualField in columns && RequestedField !in columns
                   then Renamed(columns, ManualField, RequestedField) else columns;
    var registered := WithColumn(renamed, RequestedField, rows);
    if moveDeliveryDates then registered[RequestedField := registered[ShippingField]] - {ShippingField}
    else registered
  }

  /** The sale-line table as the upgrade sees it through the host's table handler. */
  class Table {
    var columns: map<string, Column>
    const rows: nat

    ghost predicate Valid()
      reads this
    {
      WellFormed(columns, rows)
    }

    constructor (columns: map<string, Column>, rows: nat)
      requires WellFormed(columns, rows)
      ensures Valid() && this.columns == columns && this.rows == rows
    {
      this.columns := columns;
      this.rows := rows;
    }

    /** `TableHandler.column_exist`. */
    function ColumnExist(name: string): bool
      reads this
    {
      name in columns
    }

    /** `TableHandler.column_rename`: renames a column when the old name exists and the new one does not. */
    method ColumnRename(from: string, to: string)
      requires Valid()
      modifies this
      ensures Valid()
      ensures columns == Renamed(old(columns), from, to)
    {
      if from in columns && to !in columns {
        columns := (columns - {from})[to := columns[from]];
      }
    }

    /** The base `__register__`: creates the requested delivery date column, empty, when it is missing. */
    method BaseRegister()
      requires Valid()
      modifies this
      ensures Valid()
      ensures columns == WithColumn(old(columns), RequestedField, rows)
    {
      if RequestedField !in columns {
        columns := columns[RequestedField := seq(rows, _ => None)];
      }
    }

    /** `UPDATE sale_line SET to = from`: every row's value of `from` is copied into `to`. */
    method CopyColumn(from: string, to: string)
      requires Valid() && from in columns && to in columns
      modifies this
      ensures Valid()
      ensures columns == old(columns)[to := old(columns)[from]]
    {
      columns := columns[to := columns[from]];
    }

    /** `TableHandler.drop_column`. */
    method DropColumn(name: string)
      requires Valid()
      modifies this
      ensures Valid()
      ensures columns == old(columns) - {name}
    {
      columns := columns - {name};
    }

    /**
      `SaleLine.__register__`: decides whether to move the shipping dates
      before anything changes, renames the manual date, lets the host
      register the table, then copies the shipping dates and drops their
      column.
     */
    method Register()
      requires Valid()
      modifies this
      ensures Valid()
      ensures columns == Migrated(old(columns), rows)
    {
      var moveDeliveryDates := !ColumnExist(RequestedField) && ColumnExist(ShippingField);
      if ColumnExist(ManualField) && !ColumnExist(RequestedField) {
        ColumnRename(ManualField, RequestedField);
      }
      BaseRegister();
      if moveDeliveryDates {
        CopyColumn(ShippingField, RequestedField);
        DropColumn(ShippingField);
      }
    }
  }

  /** The upgrade keeps every column one value per row, and afterwards the requested date exists. */
  lemma MigratedWellFormed(columns: map<string, Column>, rows: nat)
    requires WellFormed(columns, rows)
    ensures WellFormed(Migrated(columns, rows), rows)
    ensures RequestedField in Migrated(columns, rows)
  {
  }

  /** When the requested date column already exists, the upgrade renames, copies and drops nothing. */
  lemma {:induction false} CurrentTableUntouched(columns: map<string, Column>, rows: nat)
    requires RequestedField in columns
    ensures Migrated(columns, rows) == columns
  {
  }

  /** Running the upgrade a second time changes nothing. */
  lemma {:induction false} MigrationRerunNoOp(columns: map<string, Column>, rows: nat)
    ensures Migrated(Migrated(columns, rows), rows) == Migrated(columns, rows)
  {
    CurrentTableUntouched(Migrated(columns, rows), rows);
  }

  /**
    Migration from the shipping date: without a requested date column, an
    existing shipping date column ends up as the requested date, values and
    all, and is gone afterwards, whether or not a manual date was renamed
    first; a manual date column does not survive either.
   */
  lemma ShippingDatesMoved(columns: map<string, Column>, rows: nat)
    requires RequestedField !in columns && ShippingField in columns
    ensures Migrated(columns, rows)[RequestedField] == columns[ShippingField]
    ensures ShippingField !in Migrated(columns, rows)
    ensures ManualField !in Migrated(columns, rows)
  {
  }

  /**
    Migration from the manual date: without a requested date or a shipping
    date column, the manual date column is renamed to the requested date,
    keeping its values.
   */
  lemma ManualDateRenamed(columns: map<string, Column>, rows: nat)
    requires RequestedField !in columns && ShippingField !in columns && ManualField in columns
    ensures Migrated(columns, rows)[RequestedField] == columns[ManualField]
    ensures ManualField !in Migrated(columns, rows)
    ensures Migrated(columns, rows).Keys == columns.Keys - {ManualField} + {RequestedField}
  {
  }

  /** With no legacy column at all, the upgrade only adds an empty requested date column. */
  lemma FreshTable(columns: map<string, Column>, rows: nat)
    requires RequestedField !in columns && ShippingField !in columns && ManualField !in columns
    ensures Migrated(columns, rows) == columns[RequestedField := seq(rows, _ => None)]
    ensures forall r :: 0 <= r < rows ==> Migrated(columns, rows)[RequestedField][r].None?
  {
  }

  /** Columns other than the three delivery-date columns are never touched. */
  lemma OtherColumnsKept(columns: map<string, Column>, rows: nat, name: string)
    requires name != RequestedField && name != ShippingField && name != ManualField
    ensures name in Migrated(columns, rows) <==> name in columns
    ensures name in columns ==> Migrated(columns, rows)[name] == columns[name]
  {
  }

  /**
    At most one delivery-date column survives the upgrade alongside the
    requested date: the shipping date never does when it was migrated, and
    the manual date never does when the requested date was missing.
   */
  lemma NoDuplicatedDates(columns: map<string, Column>, rows: nat)
    requires RequestedField !in columns
    ensures ShippingField !in Migrated(columns, rows)
    ensures ManualField !in Migrated(columns, rows)
  {
  }
}
