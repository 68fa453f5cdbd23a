/**
  `Sale._group_shipment_key`: the key under which stock moves are grouped
  into shipments. The host's key is a sequence of (field, value) pairs; the
  extension moves the move's planned date to the front of it, so that moves
  with different planned dates never share a shipment.
 */
module ShipmentKey {
  import opened SaleModel

  /** The entries of a grouping key whose field is not the planned date, in order. */
  function WithoutPlannedDate<V>(grouping: seq<(string, V)>): seq<(string, V)>
  {
    if grouping == [] then []
    else
      var rest := WithoutPlannedDate(grouping[..|grouping| - 1]);
      var last := grouping[|grouping| - 1];
      if last.0 == PlannedDateField then rest else rest + [last]
  }

  /** The key the extension produces from the host's key and the move's planned date. */
  function Key<V>(grouping: seq<(string, V)>, plannedDate: V): seq<(string, V)>
  {
    [(PlannedDateField, plannedDate)] + WithoutPlannedDate(grouping)
  }

  /**
    Builds the key as `_group_shipment_key` does: start from the planned-date entry and
    append every entry of the host's key that is not a planned date.
   */
  method GroupShipmentKey<V>(grouping: seq<(string, V)>, plannedDate: V) returns (key: seq<(string, V)>)
    ensures key == Key(grouping, plannedDate)
    ensures |key| >= 1 && key[0] == (PlannedDateField, plannedDate)
    ensures forall i :: 1 <= i < |key| ==> key[i].0 != PlannedDateField
  {
    key := [(PlannedDateField, plannedDate)];
    for i := 0 to |grouping|
      invariant key == [(PlannedDateField, plannedDate)] + WithoutPlannedDate(grouping[..i])
    {
      assert grouping[..i + 1][..i] == grouping[..i];
      var (field, value) := grouping[i];
      if field != PlannedDateField {
        key := key + [(field, value)];
      }
    }
    assert grouping[..|grouping|] == grouping;
    KeyHasOnePlannedDate(grouping, plannedDate);
  }

  /** An entry survives the filter exactly when it is in the key and is not a planned date. */
  lemma {:induction false} WithoutPlannedDateMembers<V>(grouping: seq<(string, V)>)
    ensures forall e :: e in WithoutPlannedDate(grouping) <==> e in grouping && e.0 != PlannedDateField
  {
    if grouping != [] {
      var init := grouping[..|grouping| - 1];
      WithoutPlannedDateMembers(init);
      assert grouping == init + [grouping[|grouping| - 1]];
    }
  }

  /** The filter keeps order: filtering a concatenation concatenates the filtered parts. */
  lemma {:induction false} WithoutPlannedDateConcat<V>(a: seq<(string, V)>, b: seq<(string, V)>)
    ensures WithoutPlannedDate(a + b) == WithoutPlannedDate(a) + WithoutPlannedDate(b)
  {
    if b == [] {
      assert a + b == a;
    } else {
      var init := b[..|b| - 1];
      WithoutPlannedDateConcat(a, init);
      assert (a + b)[..|a + b| - 1] == a + init;
    }
  }

  /** A key with no planned-date entry passes through the filter unchanged. */
  lemma {:induction false} WithoutPlannedDateIdentity<V>(grouping: seq<(string, V)>)
    requires forall i :: 0 <= i < |grouping| ==> grouping[i].0 != PlannedDateField
    ensures WithoutPlannedDate(grouping) == grouping
  {
    if grouping != [] {
      var init := grouping[..|grouping| - 1];
      WithoutPlannedDateIdentity(init);
      assert grouping == init + [grouping[|grouping| - 1]];
    }
  }

  /** The filtered key holds no planned-date entry. */
  lemma {:induction false} WithoutPlannedDateClean<V>(grouping: seq<(string, V)>)
    ensures forall i :: 0 <= i < |WithoutPlannedDate(grouping)| ==> WithoutPlannedDate(grouping)[i].0 != PlannedDateField
  {
    if grouping != [] {
      WithoutPlannedDateClean(grouping[..|grouping| - 1]);
    }
  }

  /**
    The key starts with the move's planned date, no later entry is a planned
    date, and the later entries are the host's other entries in their order.
   */
  lemma KeyHasOnePlannedDate<V>(grouping: seq<(string, V)>, plannedDate: V)
    ensures |Key(grouping, plannedDate)| >= 1
    ensures Key(grouping, plannedDate)[0] == (PlannedDateField, plannedDate)
    ensures forall i :: 1 <= i < |Key(grouping, plannedDate)| ==> Key(grouping, plannedDate)[i].0 != PlannedDateField
    ensures Key(grouping, plannedDate)[1..] == WithoutPlannedDate(grouping)
  {
    WithoutPlannedDateClean(grouping);
    var key := Key(grouping, plannedDate);
    forall i | 1 <= i < |key|
      ensures key[i].0 != PlannedDateField
    {
      assert key[i] == WithoutPlannedDate(grouping)[i - 1];
    }
  }

  /**
    Two keys are equal exactly when the planned dates are equal and the
    host's keys agree once their planned-date entries are dropped. In
    particular moves with the same host key share a key iff their planned
    dates are equal.
   */
  lemma KeysEqualIff<V>(g1: seq<(string, V)>, d1: V, g2: seq<(string, V)>, d2: V)
    ensures Key(g1, d1) == Key(g2, d2) <==> d1 == d2 && WithoutPlannedDate(g1) == WithoutPlannedDate(g2)
  {
    if Key(g1, d1) == Key(g2, d2) {
      assert Key(g1, d1)[0] == Key(g2, d2)[0];
      assert Key(g1, d1)[1..] == Key(g2, d2)[1..];
    }
  }

  /** Regrouping a produced key under the same planned date gives the same key. */
  lemma {:induction false} KeyIdempotent<V>(grouping: seq<(string, V)>, plannedDate: V)
    ensures Key(Key(grouping, plannedDate), plannedDate) == Key(grouping, plannedDate)
  {
    var head := [(PlannedDateField, plannedDate)];
    WithoutPlannedDateConcat(head, WithoutPlannedDate(grouping));
    assert WithoutPlannedDate(head) == [] by {
      assert head[..0] == [];
    }
    WithoutPlannedDateClean(grouping);
    WithoutPlannedDateIdentity(WithoutPlannedDate(grouping));
  }
}
