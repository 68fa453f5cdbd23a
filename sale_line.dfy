/**
  The sale-line side of the extension: when the requested delivery date is
  shown, how it and the shipping date are proposed, and what a copy of a
  line starts with.
 */
module SaleLineDates {
  import opened Wrappers
  import opened SaleModel

  /**
    The `invisible` state of the requested delivery date field, over the
    line's `type` and `quantity`. The field is hidden for a line whose
    `type` is not "line", and for a quantity that is unset or zero (both
    read as 0) or negative.
   */
  function Invisible(line: SaleLine): (hidden: bool)
    ensures hidden <==> !(line.kind == LineKind && line.quantity.Some? && line.quantity.value > 0)
  {
    var q := if line.quantity.Some? && line.quantity.value != 0 then line.quantity.value else 0;
    line.kind != LineKind || q <= 0
  }

  /**
    The extension's `on_change_with_shipping_date`: with stock moves the host
    computes the date; without them the line's requested delivery date is
    proposed as it stands.
   */
  function ShippingDate(line: SaleLine, base: BaseShippingDate): (date: Option<Date>)
    ensures line.moves != [] ==> date == base(line)
    ensures line.moves == [] ==> date == line.requestedDeliveryDate
    ensures line.moves == [] && line.requestedDeliveryDate.None? ==> date.None?
    ensures date.Some? ==> line.moves != [] || line.requestedDeliveryDate.Some?
  {
    if line.moves != [] then base(line) else line.requestedDeliveryDate
  }

  /**
    The extension's `on_change_with_requested_delivery_date`: an explicit
    date is kept; an empty one is replaced by the host's shipping date
    (the base computation, not the override above).
   */
  function RequestedDate(line: SaleLine, base: BaseShippingDate): (date: Option<Date>)
    ensures line.requestedDeliveryDate.Some? ==> date == line.requestedDeliveryDate
    ensures line.requestedDeliveryDate.None? ==> date == base(line)
    ensures date.None? <==> line.requestedDeliveryDate.None? && base(line).None?
    ensures line.moves != [] && line.requestedDeliveryDate.None? ==> date == ShippingDate(line, base)
  {
    if line.requestedDeliveryDate.Some? then line.requestedDeliveryDate else base(line)
  }

  /** An explicit requested date wins over anything the moves or the host say. */
  lemma ExplicitDateWins(line: SaleLine, base: BaseShippingDate)
    requires line.requestedDeliveryDate.Some?
    ensures RequestedDate(line, base) == line.requestedDeliveryDate
    ensures line.moves == [] ==> ShippingDate(line, base) == line.requestedDeliveryDate
  {
  }

  /**
    With no explicit date, the requested date comes from the host; the
    shipping date comes from the host when there are moves and is empty
    otherwise; with moves the two proposals agree.
   */
  lemma EmptyDateFallsBack(line: SaleLine, base: BaseShippingDate)
    requires line.requestedDeliveryDate.None?
    ensures RequestedDate(line, base) == base(line)
    ensures ShippingDate(line, base) == if line.moves != [] then base(line) else None
    ensures line.moves != [] ==> ShippingDate(line, base) == RequestedDate(line, base)
  {
  }

  /**
    Accepting the proposed requested date and asking again proposes the
    same date: the on-change rule is stable under its own output.
   */
  lemma RequestedDateStable(line: SaleLine, base: BaseShippingDate)
    ensures RequestedDate(line.(requestedDeliveryDate := RequestedDate(line, base)), base)
         == RequestedDate(line, base)
  {
  }

  /**
    The defaults `copy` hands to the host's copy: the caller's defaults
    (an empty map when none are given) with the requested delivery date
    set to empty unless the caller supplied a value for it.
   */
  function CopyDefaults<V>(default: Option<map<string, Option<V>>>): (d: map<string, Option<V>>)
    ensures RequestedField in d
    ensures default.None? ==> d == map[RequestedField := None]
    ensures default.Some? ==> d.Keys == default.value.Keys + {RequestedField}
    ensures default.Some? ==> forall k :: k in default.value ==> d[k] == default.value[k]
    ensures (default.None? || RequestedField !in default.value) ==> d[RequestedField] == None
  {
    var given := if default.Some? then default.value else map[];
    if RequestedField in given then given else given[RequestedField := None]
  }

  /** Completing the defaults twice is the same as once. */
  lemma CopyDefaultsIdempotent<V>(default: Option<map<string, Option<V>>>)
    ensures CopyDefaults(Some(CopyDefaults(default))) == CopyDefaults(default)
  {
  }

  /** A mutable defaults dictionary, as the caller of `copy` owns it. */
  class DefaultValues<V> {
    var entries: map<string, Option<V>>

    constructor ()
      ensures entries == map[]
    {
      entries := map[];
    }

    /** `setdefault(key)`: add `key` with an empty value unless it is present. */
    method SetDefault(key: string)
      modifies this
      ensures entries == if key in old(entries) then old(entries) else old(entries)[key := None]
    {
      if key !in entries {
        entries := entries[key := None];
      }
    }
  }

  /**
    `SaleLine.copy`: a missing defaults dictionary becomes a fresh empty one,
    the requested delivery date is defaulted to empty in place (so a caller's
    dictionary gains the key), and the host's copy is called with the result.
   */
  method Copy<V>(lines: seq<SaleLine>, default: DefaultValues?<V>,
                 baseCopy: (seq<SaleLine>, map<string, Option<V>>) -> seq<SaleLine>)
    returns (copies: seq<SaleLine>)
    modifies default
    ensures default != null ==> default.entries == CopyDefaults(Some(old(default.entries)))
    ensures copies == baseCopy(lines, CopyDefaults(if default == null then None else Some(old(default.entries))))
  {
    var d := default;
    if d == null {
      d := new DefaultValues();
    }
    d.SetDefault(RequestedField);
    copies := baseCopy(lines, d.entries);
  }
}
