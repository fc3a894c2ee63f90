/**
 * The waste-log ledger as `WastePlateApp` keeps it (newest entry first) and the
 * figures `Dashboard` derives from it on every render.
 */
module Ledger {
  import opened JsNumbers
  import opened WasteLog

  /** `addLogEntry`: the new entry goes in front of the previous list. */
  function Prepend(prev: seq<LogEntry>, newLog: LogEntry): (r: seq<LogEntry>)
    ensures |r| == |prev| + 1 && r[0] == newLog && r[1..] == prev
  {
    [newLog] + prev
  }

  /** The ledger after `addLogEntry` is called on each of `submitted`, in order. */
  function AddAll(prev: seq<LogEntry>, submitted: seq<LogEntry>): seq<LogEntry>
    decreases |submitted|
  {
    if submitted == [] then prev
    else AddAll(Prepend(prev, submitted[0]), submitted[1..])
  }

  function Reversed(s: seq<LogEntry>): (r: seq<LogEntry>)
    ensures |r| == |s|
  {
    if s == [] then [] else Reversed(s[1..]) + [s[0]]
  }

  /**
   * Successive `addLogEntry` calls leave the ledger newest-first: the entries
   * submitted, in reverse order, in front of those already there, which keep
   * their order and values.
   */
  lemma {:induction false} AddAllNewestFirst(prev: seq<LogEntry>, submitted: seq<LogEntry>)
    ensures AddAll(prev, submitted) == Reversed(submitted) + prev
    decreases |submitted|
  {
    if submitted != [] {
      AddAllNewestFirst(Prepend(prev, submitted[0]), submitted[1..]);
      assert Reversed(submitted[1..]) + ([submitted[0]] + prev)
          == (Reversed(submitted[1..]) + [submitted[0]]) + prev;
    }
  }

  /** The dashboard's reduce: a left fold adding each entry's loss to a running sum. */
  function Reduce(sum: JsNumber, logs: seq<LogEntry>): JsNumber
    decreases |logs|
  {
    if logs == [] then sum else Reduce(Add(sum, logs[0].totalLoss), logs[1..])
  }

  /** `cumulativeLoss`, the reduce started at 0: the sum of every entry's loss, 0 for none. */
  function CumulativeLoss(wasteLogs: seq<LogEntry>): (r: JsNumber)
    ensures r == LossSum(wasteLogs)
  {
    ReduceIsSum(Zero, wasteLogs);
    AddZeroLeft(LossSum(wasteLogs));
    Reduce(Zero, wasteLogs)
  }

  /** Reference definition of the total loss: the sum of every entry's `totalLoss`, 0 for none. */
  function LossSum(logs: seq<LogEntry>): JsNumber
  {
    if logs == [] then Zero else Add(logs[0].totalLoss, LossSum(logs[1..]))
  }

  /** The left fold from any starting sum adds that sum to the total of the list. */
  lemma {:induction false} ReduceIsSum(sum: JsNumber, logs: seq<LogEntry>)
    ensures Reduce(sum, logs) == Add(sum, LossSum(logs))
    decreases |logs|
  {
    if logs == [] {
      AddCommutative(sum, Zero);
      AddZeroLeft(sum);
    } else {
      ReduceIsSum(Add(sum, logs[0].totalLoss), logs[1..]);
      AddAssociative(sum, logs[0].totalLoss, LossSum(logs[1..]));
    }
  }

  /** The total of a concatenation is the sum of the totals. */
  lemma {:induction false} LossSumAppend(a: seq<LogEntry>, b: seq<LogEntry>)
    ensures LossSum(a + b) == Add(LossSum(a), LossSum(b))
  {
    if a == [] {
      assert a + b == b;
      AddZeroLeft(LossSum(b));
    } else {
      assert (a + b)[1..] == a[1..] + b;
      LossSumAppend(a[1..], b);
      AddAssociative(a[0].totalLoss, LossSum(a[1..]), LossSum(b));
    }
  }

  /** In exact arithmetic the total does not depend on the order of the entries. */
  lemma {:induction false} LossSumReversed(s: seq<LogEntry>)
    ensures LossSum(Reversed(s)) == LossSum(s)
  {
    if s != [] {
      LossSumReversed(s[1..]);
      LossSumAppend(Reversed(s[1..]), [s[0]]);
      assert [s[0]][1..] == [];
      AddCommutative(s[0].totalLoss, Zero);
      AddZeroLeft(s[0].totalLoss);
      AddCommutative(LossSum(s[1..]), s[0].totalLoss);
    }
  }

  /** One entry with a NaN loss (a cleared quantity field) makes the total NaN, and only that does. */
  lemma {:induction false} LossSumNaN(logs: seq<LogEntry>)
    ensures LossSum(logs).NaN? <==> exists i :: 0 <= i < |logs| && logs[i].totalLoss.NaN?
  {
    if logs != [] {
      LossSumNaN(logs[1..]);
      assert forall i :: 1 <= i < |logs| ==> logs[i] == logs[1..][i - 1];
      assert forall i :: 0 <= i < |logs| - 1 ==> logs[1..][i] == logs[i + 1];
    }
  }

  /** When every entry's loss is finite and not negative, so is the total. */
  lemma {:induction false} LossSumNonNegative(logs: seq<LogEntry>)
    requires forall i :: 0 <= i < |logs| ==> logs[i].totalLoss.Finite? && logs[i].totalLoss.value >= 0.0
    ensures LossSum(logs).Finite? && LossSum(logs).value >= 0.0
  {
    if logs != [] {
      LossSumNonNegative(logs[1..]);
    }
  }

  /** The two figures the dashboard shows; `cumulativeLoss` in cents. */
  datatype Metrics = Metrics(cumulativeLoss: JsNumber, itemsLogged: nat)

  /** `Dashboard`'s derived figures: the total loss over the ledger and the number of entries. */
  function DashboardMetrics(wasteLogs: seq<LogEntry>): (m: Metrics)
    ensures m.cumulativeLoss == LossSum(wasteLogs)
    ensures m.itemsLogged == |wasteLogs|
  {
    Metrics(CumulativeLoss(wasteLogs), |wasteLogs|)
  }

  /**
   * After entries are added one by one, the dashboard counts every one of them
   * and totals their losses as if in submission order.
   */
  lemma MetricsAfterSubmissions(prev: seq<LogEntry>, submitted: seq<LogEntry>)
    ensures DashboardMetrics(AddAll(prev, submitted))
         == Metrics(Add(LossSum(submitted), LossSum(prev)), |prev| + |submitted|)
  {
    AddAllNewestFirst(prev, submitted);
    LossSumAppend(Reversed(submitted), prev);
    LossSumReversed(submitted);
  }
}
