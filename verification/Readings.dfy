/** One reading per worker out of an instant query's rows: a worker whose label changed
    shows up in several series, and the one still being written counts. */
module Readings {
  import opened Common
  import opened Degradation

  /** A row without a worker, or whose sample cannot be read as numbers, has no stamp. */
  datatype Row = Row(worker: string, stamp: Option<real>, value: real, version: string)

  datatype Reading = Reading(value: real, version: string)

  predicate Usable(r: Row) { r.worker != "" && r.stamp.Some? }

  datatype Seen = Seen(newest: map<string, real>, out: map<string, Reading>)

  function Taken(s: Seen, r: Row): Seen {
    if !Usable(r) || (r.worker in s.newest && r.stamp.value <= s.newest[r.worker]) then s
    else Seen(s.newest[r.worker := r.stamp.value], s.out[r.worker := Reading(r.value, r.version)])
  }

  function TakenAll(rows: seq<Row>): Seen {
    if rows == [] then Seen(map[], map[]) else Taken(TakenAll(rows[..|rows| - 1]), rows[|rows| - 1])
  }

  function ByWorker(rows: seq<Row>): map<string, Reading> { TakenAll(rows).out }

  function Durations(rows: seq<Row>): Fleet {
    var readings := ByWorker(rows);
    map w | w in readings :: readings[w].value
  }

  /** Row `k` is the first of its worker's rows that carry the newest stamp. */
  predicate IsFreshest(rows: seq<Row>, k: nat, worker: string) {
    && k < |rows| && Usable(rows[k]) && rows[k].worker == worker
    && forall j :: 0 <= j < |rows| && Usable(rows[j]) && rows[j].worker == worker ==>
         rows[j].stamp.value <= rows[k].stamp.value && (j < k ==> rows[j].stamp.value < rows[k].stamp.value)
  }

  /** The worker's reading and stamp are those of row `k`. */
  predicate ReadFrom(rows: seq<Row>, k: nat, worker: string)
    requires worker in TakenAll(rows).out && worker in TakenAll(rows).newest
  {
    && IsFreshest(rows, k, worker)
    && ByWorker(rows)[worker] == Reading(rows[k].value, rows[k].version)
    && TakenAll(rows).newest[worker] == rows[k].stamp.value
  }

  /** Every worker with a usable row gets the value and version of its freshest one. */
  lemma {:induction false} FreshestCounts(rows: seq<Row>, worker: string)
    ensures worker in ByWorker(rows) <==> exists j :: 0 <= j < |rows| && Usable(rows[j]) && rows[j].worker == worker
    ensures worker in ByWorker(rows) <==> worker in TakenAll(rows).newest
    ensures worker in ByWorker(rows) ==> exists k: nat :: ReadFrom(rows, k, worker)
  {
    if rows != [] {
      var front, r := rows[..|rows| - 1], rows[|rows| - 1];
      FreshestCounts(front, worker);
      if worker in ByWorker(front) {
        var k: nat :| ReadFrom(front, k, worker);
        assert rows[k] == front[k];
        if Usable(r) && r.worker == worker && r.stamp.value > rows[k].stamp.value {
          assert ReadFrom(rows, |rows| - 1, worker);
        } else {
          assert ReadFrom(rows, k, worker);
        }
      } else if Usable(r) && r.worker == worker {
        assert ReadFrom(rows, |rows| - 1, worker);
      }
    }
  }

  /** The loop of the program. */
  method ValuesByWorker(rows: seq<Row>) returns (out: map<string, Reading>)
    ensures out == ByWorker(rows)
  {
    var newest: map<string, real> := map[];
    out := map[];
    for i := 0 to |rows|
      invariant Seen(newest, out) == TakenAll(rows[..i])
    {
      assert rows[..i + 1][..i] == rows[..i];
      var r := rows[i];
      if r.worker == "" || r.stamp.None? { continue; }
      if r.worker in newest && r.stamp.value <= newest[r.worker] { continue; }
      newest := newest[r.worker := r.stamp.value];
      out := out[r.worker := Reading(r.value, r.version)];
    }
    assert rows[..|rows|] == rows;
  }
}
