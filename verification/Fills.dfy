/** The fills of a key, as the kernel's reservations see them and as the replay sees them. */
module Fills {
  import opened Wrappers
  import opened Domain
  import opened ExecutionLedger
  import opened LedgerTheorems
  import opened Reconciler
  import opened Telescoping
  import MapSum

  function QuantityIncrement(b: Book, r: ExecutionReport): real {
    r.fillQuantity - MapSum.Get(b.quantity, r.brokerOrderId)
  }

  function CostIncrement(b: Book, r: ExecutionReport): real {
    (r.Gross() - MapSum.Get(b.gross, r.brokerOrderId)) + (r.fee - MapSum.Get(b.fee, r.brokerOrderId))
  }

  /** Cumulative figures never shrink. */
  predicate NeverShrinks(b: Book, r: ExecutionReport) {
    && QuantityIncrement(b, r) >= 0.0
    && r.Gross() - MapSum.Get(b.gross, r.brokerOrderId) >= 0.0
    && r.fee - MapSum.Get(b.fee, r.brokerOrderId) >= 0.0
  }

  /** One broker order per key and one key per broker order, among the orders that were filled. */
  ghost predicate OneOrderPerKey(s: Maps, r: ExecutionReport) {
    forall q :: q in s.reports && q.IsFill() ==> (q.key == r.key <==> q.brokerOrderId == r.brokerOrderId)
  }

  /** The reservation's view of a key's fills and the replay's view of its broker order coincide. */
  ghost predicate FillsLinked(b: Book, reports: seq<ExecutionReport>) {
    && (forall q :: q in reports && q.IsFill() ==>
          q.brokerOrderId in b.quantity && b.quantity[q.brokerOrderId] == Filled(reports, q.key))
    && (forall o :: o in b.quantity ==> exists q :: q in reports && q.IsFill() && q.brokerOrderId == o)
  }

  lemma LargestFillAppend(reports: seq<ExecutionReport>, r: ExecutionReport, key: Key)
    ensures LargestFill(reports + [r], key)
         == (var before := LargestFill(reports, key);
             if r.key != key || !r.IsFill() then before
             else if before.Some? && before.value >= r.fillQuantity then before else Some(r.fillQuantity))
  {
    assert (reports + [r])[..|reports|] == reports;
  }

  lemma {:induction false} LargestFillIsReported(reports: seq<ExecutionReport>, key: Key)
    ensures LargestFill(reports, key).Some? <==> exists q :: q in reports && q.IsFill() && q.key == key
  {
    if reports != [] {
      var init, r := reports[..|reports| - 1], reports[|reports| - 1];
      assert reports == init + [r];
      LargestFillIsReported(init, key);
      LargestFillAppend(init, r, key);
    }
  }

  /** Before a fill is applied, the replay and the reservation agree on how much of the key was filled. */
  lemma PreviousFill(b: Book, s: Maps, r: ExecutionReport)
    requires FillsLinked(b, s.reports) && OneOrderPerKey(s, r)
    ensures MapSum.Get(b.quantity, r.brokerOrderId) == Filled(s.reports, r.key)
    ensures r.brokerOrderId !in b.quantity ==> LargestFill(s.reports, r.key).None?
  {
    LargestFillIsReported(s.reports, r.key);
    if r.brokerOrderId in b.quantity {
      var q :| q in s.reports && q.IsFill() && q.brokerOrderId == r.brokerOrderId;
      assert q.key == r.key;
    }
    if LargestFill(s.reports, r.key).Some? {
      var q :| q in s.reports && q.IsFill() && q.key == r.key;
      assert q.brokerOrderId == r.brokerOrderId;
    }
  }

  lemma FilledAfter(b: Book, s: Maps, r: ExecutionReport, k: Key)
    requires FillsLinked(b, s.reports) && r.IsFill() && OneOrderPerKey(s, r) && QuantityIncrement(b, r) >= 0.0
    ensures Filled(s.reports + [r], k) == if k == r.key then r.fillQuantity else Filled(s.reports, k)
  {
    PreviousFill(b, s, r);
    LargestFillAppend(s.reports, r, k);
  }

  lemma LinkedAfterFill(b: Book, b': Book, s: Maps, r: ExecutionReport)
    requires FillsLinked(b, s.reports) && r.IsFill() && OneOrderPerKey(s, r) && QuantityIncrement(b, r) >= 0.0
    requires b'.quantity == b.quantity[r.brokerOrderId := r.fillQuantity]
    ensures FillsLinked(b', s.reports + [r])
  {
    var reports := s.reports + [r];
    forall q | q in reports && q.IsFill()
      ensures q.brokerOrderId in b'.quantity && b'.quantity[q.brokerOrderId] == Filled(reports, q.key)
    {
      FilledAfter(b, s, r, q.key);
    }
    forall o | o in b'.quantity
      ensures exists q :: q in reports && q.IsFill() && q.brokerOrderId == o
    {
      if o == r.brokerOrderId {
        assert r in reports;
      } else {
        var q :| q in s.reports && q.IsFill() && q.brokerOrderId == o;
        assert q in reports;
      }
    }
  }

  lemma LinkedAfterOther(b: Book, b': Book, reports: seq<ExecutionReport>, r: ExecutionReport)
    requires FillsLinked(b, reports) && !r.IsFill() && b'.quantity == b.quantity
    ensures FillsLinked(b', reports + [r])
  {
    forall q | q in reports + [r] && q.IsFill()
      ensures q.brokerOrderId in b'.quantity && b'.quantity[q.brokerOrderId] == Filled(reports + [r], q.key)
    {
      LargestFillAppend(reports, r, q.key);
    }
    forall o | o in b'.quantity
      ensures exists q :: q in reports + [r] && q.IsFill() && q.brokerOrderId == o
    {
      var q :| q in reports && q.IsFill() && q.brokerOrderId == o;
      assert q in reports + [r];
    }
  }

  lemma SeenIds(s: Maps, b: Book)
    requires ReportsFit(s) && b.seen == Ids(s.reports)
    ensures b.seen <= s.reportIds
  {
  }

  /** Nothing was reported for a key, so nothing was filled. */
  lemma NoReportsNoFill(reports: seq<ExecutionReport>, key: Key)
    requires forall r :: r in reports ==> r.key != key
    ensures Filled(reports, key) == 0.0 && LargestFill(reports, key).None?
  {
    if reports != [] {
      assert reports[|reports| - 1] in reports;
      NoReportsNoFill(reports[..|reports| - 1], key);
    }
  }
}
