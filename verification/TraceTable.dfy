/** The table `run_traces`: numbered event rows, `MAX(seq)`, and `SELECT ... ORDER BY seq`. */
module TraceTable {
  import opened Domain

  /** The columns of the UNIQUE index, which identify a row. */
  datatype TraceKey = TraceKey(tenant: Id, run: Id, number: nat)

  datatype TraceRow = TraceRow(number: nat, event: Event)

  type Traces = map<TraceKey, Event>

  ghost function SeqsOf(traces: Traces, tenant: Id, run: Id): set<nat> {
    set k | k in traces && k.tenant == tenant && k.run == run :: k.number
  }

  /** `COALESCE(MAX(seq), 0)`. */
  ghost function Max(s: set<nat>): (m: nat)
    ensures forall x :: x in s ==> x <= m
    ensures if s == {} then m == 0 else m in s
  {
    if s == {} then 0
    else
      var x :| x in s;
      var rest := Max(s - {x});
      assert forall y :: y in s ==> y == x || y in s - {x};
      if rest < x then x else rest
  }

  ghost function MaxSeq(traces: Traces, tenant: Id, run: Id): nat {
    Max(SeqsOf(traces, tenant, run))
  }

  /** The rows of one run whose numbers are in `s`, in increasing order. */
  ghost function Select(traces: Traces, tenant: Id, run: Id, s: set<nat>): seq<TraceRow>
    requires s <= SeqsOf(traces, tenant, run)
  {
    if s == {} then []
    else
      var m := Max(s);
      Select(traces, tenant, run, s - {m}) + [TraceRow(m, traces[TraceKey(tenant, run, m)])]
  }

  /** Rows selected in order, and the next one. */
  lemma SelectNext(traces: Traces, tenant: Id, run: Id, s: set<nat>, n: nat)
    requires s + {n} <= SeqsOf(traces, tenant, run) && forall x :: x in s ==> x < n
    ensures Select(traces, tenant, run, s + {n})
         == Select(traces, tenant, run, s) + [TraceRow(n, traces[TraceKey(tenant, run, n)])]
  {
    assert Max(s + {n}) == n;
    assert (s + {n}) - {n} == s;
  }

  ghost function GetTrace(traces: Traces, tenant: Id, run: Id): seq<TraceRow> {
    Select(traces, tenant, run, SeqsOf(traces, tenant, run))
  }

  predicate IsRow(traces: Traces, tenant: Id, run: Id, row: TraceRow) {
    var k := TraceKey(tenant, run, row.number);
    k in traces && traces[k] == row.event
  }

  lemma {:induction false} SelectInOrder(traces: Traces, tenant: Id, run: Id, s: set<nat>)
    requires s <= SeqsOf(traces, tenant, run)
    ensures var rows := Select(traces, tenant, run, s);
            && (forall i, j :: 0 <= i < j < |rows| ==> rows[i].number < rows[j].number)
            && forall row :: row in rows <==> row.number in s && IsRow(traces, tenant, run, row)
    decreases |s|
  {
    if s == {} {
    } else {
      var m := Max(s);
      SelectInOrder(traces, tenant, run, s - {m});
      var before := Select(traces, tenant, run, s - {m});
      assert forall i :: 0 <= i < |before| ==> before[i] in before && before[i].number in s - {m};
    }
  }

  /** The trace of a run has each of its rows once, and in the order of their numbers. */
  lemma TraceInOrder(traces: Traces, tenant: Id, run: Id)
    ensures var rows := GetTrace(traces, tenant, run);
            && (forall i, j :: 0 <= i < j < |rows| ==> rows[i].number < rows[j].number)
            && forall row :: row in rows <==> IsRow(traces, tenant, run, row)
  {
    SelectInOrder(traces, tenant, run, SeqsOf(traces, tenant, run));
    forall row: TraceRow ensures IsRow(traces, tenant, run, row) ==> row.number in SeqsOf(traces, tenant, run) {
      var k := TraceKey(tenant, run, row.number);
      assert k in traces ==> row.number in SeqsOf(traces, tenant, run);
    }
  }

  function Events(rows: seq<TraceRow>): (events: seq<Event>)
    ensures |events| == |rows|
  {
    seq(|rows|, i requires 0 <= i < |rows| => rows[i].event)
  }

  ghost function Log(traces: Traces, tenant: Id, run: Id): seq<Event> {
    Events(GetTrace(traces, tenant, run))
  }

  /** Numbered 1, 2, 3, ... without gap or duplicate. */
  ghost predicate Dense(rows: seq<TraceRow>) {
    forall i :: 0 <= i < |rows| ==> rows[i].number == i + 1
  }

  ghost predicate SameTrace(before: Traces, after: Traces, tenant: Id, run: Id) {
    forall k: TraceKey :: k.tenant == tenant && k.run == run ==>
      (k in before <==> k in after) && (k in before ==> before[k] == after[k])
  }

  lemma {:induction false} SelectFrame(before: Traces, after: Traces, tenant: Id, run: Id, s: set<nat>)
    requires s <= SeqsOf(before, tenant, run) && s <= SeqsOf(after, tenant, run)
    requires forall n :: n in s ==> before[TraceKey(tenant, run, n)] == after[TraceKey(tenant, run, n)]
    ensures Select(before, tenant, run, s) == Select(after, tenant, run, s)
    decreases |s|
  {
    if s == {} {
    } else {
      SelectFrame(before, after, tenant, run, s - {Max(s)});
    }
  }

  /** A run's trace depends on that run's rows only. */
  lemma TraceFrame(before: Traces, after: Traces, tenant: Id, run: Id)
    requires SameTrace(before, after, tenant, run)
    ensures GetTrace(before, tenant, run) == GetTrace(after, tenant, run)
    ensures MaxSeq(before, tenant, run) == MaxSeq(after, tenant, run)
  {
    assert SeqsOf(before, tenant, run) == SeqsOf(after, tenant, run) by {
      forall n: nat ensures n in SeqsOf(before, tenant, run) <==> n in SeqsOf(after, tenant, run) {
        var k := TraceKey(tenant, run, n);
        assert n in SeqsOf(before, tenant, run) <==> k in before;
        assert n in SeqsOf(after, tenant, run) <==> k in after;
      }
    }
    SelectFrame(before, after, tenant, run, SeqsOf(before, tenant, run));
  }

  /** Inserting the row after the greatest one appends it to the ordered trace. */
  lemma AppendNext(traces: Traces, tenant: Id, run: Id, event: Event)
    ensures var n := MaxSeq(traces, tenant, run) + 1;
            var k := TraceKey(tenant, run, n);
            && k !in traces
            && GetTrace(traces[k := event], tenant, run) == GetTrace(traces, tenant, run) + [TraceRow(n, event)]
            && MaxSeq(traces[k := event], tenant, run) == n
  {
    var s := SeqsOf(traces, tenant, run);
    var n := Max(s) + 1;
    var k := TraceKey(tenant, run, n);
    assert n !in s;
    assert k !in traces;
    var after := traces[k := event];
    assert SeqsOf(after, tenant, run) == s + {n} by {
      forall x: nat ensures x in SeqsOf(after, tenant, run) <==> x in s + {n} {
        var kx := TraceKey(tenant, run, x);
        assert x in s <==> kx in traces;
        assert x in SeqsOf(after, tenant, run) <==> kx in after;
      }
    }
    assert Max(s + {n}) == n;
    assert (s + {n}) - {n} == s;
    SelectFrame(traces, after, tenant, run, s);
  }

  lemma {:induction false} LastOfTrace(traces: Traces, tenant: Id, run: Id, s: set<nat>)
    requires s <= SeqsOf(traces, tenant, run)
    ensures var rows := Select(traces, tenant, run, s);
            |rows| == |s| && (s != {} ==> rows[|rows| - 1].number == Max(s))
    decreases |s|
  {
    if s == {} {
    } else {
      LastOfTrace(traces, tenant, run, s - {Max(s)});
    }
  }

  /** In a dense trace the next number is one more than the number of rows. */
  lemma DenseMax(traces: Traces, tenant: Id, run: Id)
    requires Dense(GetTrace(traces, tenant, run))
    ensures MaxSeq(traces, tenant, run) == |GetTrace(traces, tenant, run)|
  {
    LastOfTrace(traces, tenant, run, SeqsOf(traces, tenant, run));
  }

  lemma DenseAppend(rows: seq<TraceRow>, row: TraceRow)
    requires Dense(rows) && row.number == |rows| + 1
    ensures Dense(rows + [row])
    ensures Events(rows + [row]) == Events(rows) + [row.event]
  {
  }

  /** No rows, no events. */
  lemma EmptyTrace(traces: Traces, tenant: Id, run: Id)
    requires forall k :: k in traces ==> k.run != run
    ensures GetTrace(traces, tenant, run) == []
  {
    assert SeqsOf(traces, tenant, run) == {};
  }
}
