/**
  `Sale.process`: before the host moves a batch of sales to processing, every
  product line without a requested delivery date gets one, derived from its
  shipping date, in a single batched write.
 */
module SaleProcess {
  import opened Wrappers
  import opened SaleModel
  import opened SaleLineDates

  /** A line that the backfill writes: a product line with no requested date. */
  predicate NeedsDate(line: SaleLine)
  {
    line.kind == LineKind && line.product.Some? && line.requestedDeliveryDate.None?
  }

  /** The lines of one sale that need a date, in line order. */
  function StagedIn(lines: seq<SaleLine>): seq<SaleLine>
  {
    if lines == [] then []
    else
      var last := lines[|lines| - 1];
      StagedIn(lines[..|lines| - 1]) + (if NeedsDate(last) then [last] else [])
  }

  /** The lines of a batch that need a date, in sale-then-line order. */
  function Staged(sales: seq<Sale>): seq<SaleLine>
  {
    if sales == [] then [] else Staged(sales[..|sales| - 1]) + StagedIn(sales[|sales| - 1].lines)
  }

  /**
    One argument of the host's `SaleLine.write(records, values, records, values, ...)`:
    a list of line records, or the field values to give them.
   */
  datatype WriteArg = Records(lines: seq<SaleLine>) | Values(values: map<string, Option<Date>>)

  /** A call the extension makes into the host. */
  datatype HostCall = Write(args: seq<WriteArg>) | BaseProcess(sales: seq<Sale>)

  /** The two arguments staged for one line: the line and its derived date. */
  function WritePair(line: SaleLine, base: BaseShippingDate): seq<WriteArg>
  {
    [Records([line]), Values(map[RequestedField := ShippingDate(line, base)])]
  }

  /** The flat argument list staged for a sequence of lines. */
  function WriteArgs(lines: seq<SaleLine>, base: BaseShippingDate): seq<WriteArg>
  {
    if lines == [] then [] else WriteArgs(lines[..|lines| - 1], base) + WritePair(lines[|lines| - 1], base)
  }

  /**
    The nested loop of `process`: walks the sales and their lines and extends
    the argument list with `[line]` and its derived date for each line that
    needs one.
   */
  method CollectWrites(sales: seq<Sale>, base: BaseShippingDate) returns (toWrite: seq<WriteArg>)
    ensures toWrite == WriteArgs(Staged(sales), base)
  {
    toWrite := [];
    ghost var staged: seq<SaleLine> := [];
    for i := 0 to |sales|
      invariant staged == Staged(sales[..i])
      invariant toWrite == WriteArgs(staged, base)
    {
      assert sales[..i + 1][..i] == sales[..i];
      var lines := sales[i].lines;
      for j := 0 to |lines|
        invariant staged == Staged(sales[..i]) + StagedIn(lines[..j])
        invariant toWrite == WriteArgs(staged, base)
      {
        assert lines[..j + 1][..j] == lines[..j];
        var line := lines[j];
        if line.kind == LineKind && line.product.Some? && line.requestedDeliveryDate.None? {
          var date := ShippingDate(line, base);
          toWrite := toWrite + [Records([line]), Values(map[RequestedField := date])];
          assert (staged + [line])[..|staged|] == staged;
          staged := staged + [line];
        }
      }
      assert lines[..|lines|] == lines;
    }
    assert sales[..|sales|] == sales;
  }

  /**
    `Sale.process`: the host's write is called once with every staged pair,
    and only when something was staged; the host's own `process` is always
    called last, with the same sales.
   */
  method Process(sales: seq<Sale>, base: BaseShippingDate) returns (calls: seq<HostCall>)
    ensures |calls| >= 1 && calls[|calls| - 1] == BaseProcess(sales)
    ensures calls[0].Write? <==> Staged(sales) != []
    ensures calls[0].Write? ==> calls == [Write(WriteArgs(Staged(sales), base)), BaseProcess(sales)]
    ensures !calls[0].Write? ==> calls == [BaseProcess(sales)]
  {
    var toWrite := CollectWrites(sales, base);
    WriteArgsShape(Staged(sales), base);
    calls := [];
    if toWrite != [] {
      calls := calls + [Write(toWrite)];
    }
    calls := calls + [BaseProcess(sales)];
  }

  /** A line of one sale is staged exactly when it needs a date. */
  lemma {:induction false} StagedInMembers(lines: seq<SaleLine>)
    ensures forall l :: l in StagedIn(lines) <==> l in lines && NeedsDate(l)
  {
    if lines != [] {
      var init := lines[..|lines| - 1];
      StagedInMembers(init);
      assert lines == init + [lines[|lines| - 1]];
    }
  }

  /**
    A line is staged exactly when it belongs to a sale of the batch and needs
    a date; in particular a line that already has a date is never staged.
   */
  lemma {:induction false} StagedMembers(sales: seq<Sale>)
    ensures forall l :: l in Staged(sales) <==> l in AllLines(sales) && NeedsDate(l)
    ensures forall l :: l in Staged(sales) ==> l.requestedDeliveryDate.None?
  {
    if sales != [] {
      StagedMembers(sales[..|sales| - 1]);
      StagedInMembers(sales[|sales| - 1].lines);
    }
  }

  /** Staging follows the sales in order: a batch stages its parts one after the other. */
  lemma {:induction false} StagedConcat(a: seq<Sale>, b: seq<Sale>)
    ensures Staged(a + b) == Staged(a) + Staged(b)
  {
    if b == [] {
      assert a + b == a;
    } else {
      StagedConcat(a, b[..|b| - 1]);
      assert (a + b)[..|a + b| - 1] == a + b[..|b| - 1];
    }
  }

  /** The argument list of a concatenation is the concatenation of the argument lists. */
  lemma {:induction false} WriteArgsConcat(a: seq<SaleLine>, b: seq<SaleLine>, base: BaseShippingDate)
    ensures WriteArgs(a + b, base) == WriteArgs(a, base) + WriteArgs(b, base)
  {
    if b == [] {
      assert a + b == a;
    } else {
      WriteArgsConcat(a, b[..|b| - 1], base);
      assert (a + b)[..|a + b| - 1] == a + b[..|b| - 1];
    }
  }

  /**
    The staged list alternates `[line]` and a values map whose only key is
    the requested delivery date, holding that line's derived date.
   */
  lemma {:induction false} WriteArgsShape(lines: seq<SaleLine>, base: BaseShippingDate)
    ensures |WriteArgs(lines, base)| == 2 * |lines|
    ensures forall k :: 0 <= k < |lines| ==>
      WriteArgs(lines, base)[2 * k] == Records([lines[k]]) &&
      WriteArgs(lines, base)[2 * k + 1] == Values(map[RequestedField := ShippingDate(lines[k], base)])
    ensures forall i :: 0 <= i < |WriteArgs(lines, base)| && i % 2 == 1 ==>
      WriteArgs(lines, base)[i].Values? && WriteArgs(lines, base)[i].values.Keys == {RequestedField}
  {
    if lines != [] {
      var init := lines[..|lines| - 1];
      WriteArgsShape(init, base);
      var args := WriteArgs(lines, base);
      forall k | 0 <= k < |lines|
        ensures args[2 * k] == Records([lines[k]])
        ensures args[2 * k + 1] == Values(map[RequestedField := ShippingDate(lines[k], base)])
      {
        if k < |init| {
          assert init[k] == lines[k];
        }
      }
      forall i | 0 <= i < |args| && i % 2 == 1
        ensures args[i].Values? && args[i].values.Keys == {RequestedField}
      {
        assert args[2 * (i / 2) + 1] == args[i];
      }
    }
  }

  /** Whether a list of line records names the record `id`. */
  predicate Names(records: seq<SaleLine>, id: int)
  {
    exists r :: r in records && r.id == id
  }

  /**
    The effect of the host's batched write on one line record: each
    (records, values) pair in turn sets the requested delivery date of the
    lines it names, when its values carry that field.
   */
  function WrittenLine(line: SaleLine, args: seq<WriteArg>): SaleLine
    decreases |args|
  {
    if |args| < 2 then line
    else
      var next :=
        if args[0].Records? && args[1].Values? && Names(args[0].lines, line.id) && RequestedField in args[1].values
        then line.(requestedDeliveryDate := args[1].values[RequestedField])
        else line;
      WrittenLine(next, args[2..])
  }

  /** What a backfilled line looks like: lines that need a date receive their shipping date. */
  function Backfilled(line: SaleLine, base: BaseShippingDate): SaleLine
  {
    if NeedsDate(line) then line.(requestedDeliveryDate := ShippingDate(line, base)) else line
  }

  /** Record ids identify lines: two lines of the batch with one id are the same record. */
  ghost predicate IdsIdentifyLines(sales: seq<Sale>)
  {
    forall a, b :: a in AllLines(sales) && b in AllLines(sales) && a.id == b.id ==> a == b
  }

  /**
    Writing the arguments staged for `lines` to a record with `orig`'s id sets
    its date to `orig`'s derived date when `orig` is among them, and leaves
    the record alone otherwise.
   */
  lemma {:induction false} WrittenByArgs(x: SaleLine, lines: seq<SaleLine>, base: BaseShippingDate, orig: SaleLine)
    requires orig.id == x.id
    requires forall y :: y in lines && y.id == x.id ==> y == orig
    ensures WrittenLine(x, WriteArgs(lines, base))
         == if orig in lines then x.(requestedDeliveryDate := ShippingDate(orig, base)) else x
    decreases |lines|
  {
    if lines != [] {
      var first, rest := lines[0], lines[1..];
      assert lines == [first] + rest;
      WriteArgsConcat([first], rest, base);
      assert WriteArgs([first], base) == WritePair(first, base) by {
        assert [first][..0] == [];
      }
      var args := WriteArgs(lines, base);
      assert args[2..] == WriteArgs(rest, base);
      assert Names(args[0].lines, x.id) <==> first.id == x.id by {
        assert args[0].lines == [first];
      }
      var next := if first.id == x.id then x.(requestedDeliveryDate := ShippingDate(first, base)) else x;
      assert WrittenLine(x, args) == WrittenLine(next, WriteArgs(rest, base));
      WrittenByArgs(next, rest, base, orig);
    }
  }

  /**
    The single batched write leaves each line of the batch exactly as the
    backfill describes: product lines without a date get their derived
    date and every other line keeps its value.
   */
  lemma WriteBackfills(sales: seq<Sale>, base: BaseShippingDate, line: SaleLine)
    requires IdsIdentifyLines(sales)
    requires line in AllLines(sales)
    ensures WrittenLine(line, WriteArgs(Staged(sales), base)) == Backfilled(line, base)
  {
    StagedMembers(sales);
    WrittenByArgs(line, Staged(sales), base, line);
  }

  /**
    Backfilling again changes no value. A second run stages again exactly
    the lines whose derived date was empty; an explicit date is never
    touched; and with moves the stored date is the one the on-change rule
    proposes.
   */
  lemma BackfillIdempotent(line: SaleLine, base: BaseShippingDate)
    ensures Backfilled(Backfilled(line, base), base) == Backfilled(line, base)
    ensures NeedsDate(Backfilled(line, base)) <==> NeedsDate(line) && ShippingDate(line, base).None?
    ensures line.requestedDeliveryDate.Some? ==> Backfilled(line, base) == line
    ensures NeedsDate(line) && line.moves != [] ==>
      Backfilled(line, base).requestedDeliveryDate == RequestedDate(line, base)
  {
  }
}
