/** Invoice and credit note numbers: each series is exactly 1 to its counter, each number on one document. */
module DocumentNumbers {
  import opened Wrappers
  import opened Purchases

  /** Where a number can be stored. */
  datatype Slot = InvoiceSlot(id: string) | NoteSlot(id: string, index: nat)

  function NumberAt(w: Shop, slot: Slot): Option<Number> {
    match slot
    case InvoiceSlot(id) => if id in w.purchases then w.purchases[id].invoice else None
    case NoteSlot(id, i) => if id in w.payments && i < |w.payments[id].refunds| then w.payments[id].refunds[i].note else None
  }

  function CounterOf(w: Shop, series: Series): nat {
    if series in w.counters then w.counters[series] else 0
  }

  ghost predicate NumbersOk(w: Shop) {
    && (forall slot :: NumberAt(w, slot).Some? ==> 1 <= NumberAt(w, slot).value.no <= CounterOf(w, NumberAt(w, slot).value.series))
    && (forall slot :: NumberAt(w, slot).Some? ==> (slot.InvoiceSlot? <==> NumberAt(w, slot).value.series.InvoicesOf?))
    && (forall a, b :: a != b && NumberAt(w, a).Some? ==> NumberAt(w, a) != NumberAt(w, b))
    && (forall series, k: nat :: 1 <= k <= CounterOf(w, series) ==> Stored(w, Number(series, k)))
  }

  ghost predicate Stored(w: Shop, n: Number) { exists slot :: NumberAt(w, slot) == Some(n) }

  lemma SameNumbers(w: Shop, w': Shop)
    requires NumbersOk(w) && w'.counters == w.counters && forall slot :: NumberAt(w', slot) == NumberAt(w, slot)
    ensures NumbersOk(w')
  {
    forall series, k: nat | 1 <= k <= CounterOf(w', series) ensures Stored(w', Number(series, k)) {
      assert CounterOf(w, series) == CounterOf(w', series);
      assert Stored(w, Number(series, k));
      var slot :| NumberAt(w, slot) == Some(Number(series, k));
      assert NumberAt(w', slot) == Some(Number(series, k));
    }
  }

  /** One document without a number gets the next one of its series. */
  lemma OneNumber(w: Shop, w': Shop, slot: Slot, series: Series)
    requires NumbersOk(w) && NumberAt(w, slot).None? && (slot.InvoiceSlot? <==> series.InvoicesOf?)
    requires w'.counters == Taken(w.counters, NextNumber(w.counters, series))
    requires NumberAt(w', slot) == Some(NextNumber(w.counters, series))
    requires forall other :: other != slot ==> NumberAt(w', other) == NumberAt(w, other)
    ensures NumbersOk(w')
  {
    assert CounterOf(w', series) == CounterOf(w, series) + 1;
    forall s, k: nat | 1 <= k <= CounterOf(w', s) ensures Stored(w', Number(s, k)) {
      if s == series && k == CounterOf(w', s) {
        assert NumberAt(w', slot) == Some(Number(s, k));
      } else {
        assert Stored(w, Number(s, k));
        var old_ :| NumberAt(w, old_) == Some(Number(s, k));
        assert NumberAt(w', old_) == Some(Number(s, k));
      }
    }
  }
}
