/** Entity bodies of the OGC SensorThings API as the pipeline builds them, and the
    OData JSON batch envelope (`{"requests": [{id, method, url, body}, ...]}`, section 19
    of OData JSON Format 4.01) in which they are posted to `$batch`. */
module SensorThings {
  import opened Wrappers

  /** An opaque JSON payload that the pipeline copies without looking inside
      (geometries, Sensor and ObservedProperty links, free-form properties). */
  datatype Json =
    | JNull
    | JBool(b: bool)
    | JNum(n: real)
    | JStr(s: string)
    | JArr(items: seq<Json>)
    | JObj(fields: map<string, Json>)

  datatype UnitOfMeasurement = UnitOfMeasurement(name: string, symbol: string, definition: string)

  /** A Datastream body; `thing` is the `Thing: {"@iot.id": ...}` link that
      `DatastreamAppend` adds (None for a Datastream nested in a Thing). */
  datatype Datastream = Datastream(
    name: string,
    description: string,
    observationType: string,
    unitOfMeasurement: UnitOfMeasurement,
    sensor: Json,
    observedProperty: Json,
    properties: Json,
    thing: Option<int>)

  /** A Location body; `properties` is absent from the older record shape. */
  datatype Location = Location(
    name: string,
    description: string,
    encodingType: string,
    location: Json,
    properties: Option<Json>)

  /** The `properties` object of a plot Thing; `treatmentId` is None when the key is left out. */
  datatype PlotProperties = PlotProperties(trialId: string, plotId: string, treatmentId: Option<string>, year: int)

  datatype Thing = Thing(
    name: string,
    description: string,
    properties: PlotProperties,
    locations: seq<Location>,
    datastreams: seq<Datastream>)

  /** A JSON value of a statistic: a number, or `null` for an empty zone. */
  datatype StatValue = Null | Num(x: real)

  /** The `result` object of an Observation: the five zone statistics. */
  datatype StatResult = StatResult(mean: StatValue, min: StatValue, max: StatValue, stddev: StatValue, median: StatValue)

  /** An Observation body linked to its Datastream by `Datastream: {"@iot.id": datastream}`;
      a `resultTime` of None is serialised as `null`. */
  datatype Observation = Observation(phenomenonTime: string, resultTime: Option<string>, result: StatResult, datastream: int)

  /** One entry of a batch request. */
  datatype Request<B> = Request(id: int, httpMethod: string, url: string, body: B)

  /** One `post` request to `url` per body, in order, numbered from `start`. */
  function PostBatch<B>(bodies: seq<B>, url: string, start: int): (batch: seq<Request<B>>)
    ensures |batch| == |bodies|
  {
    if bodies == [] then []
    else [Request(start, "post", url, bodies[0])] + PostBatch(bodies[1..], url, start + 1)
  }

  /** The bodies carried by a batch, in request order. */
  function Bodies<B>(batch: seq<Request<B>>): (bodies: seq<B>)
    ensures |bodies| == |batch|
  {
    if batch == [] then [] else [batch[0].body] + Bodies(batch[1..])
  }

  /** Every request of a batch built by `PostBatch` is a `post` to `url`, the k-th one
      carries the k-th body and has id `start + k`; so the ids are distinct and
      contiguous, and unwrapping the batch gives the bodies back. */
  lemma {:induction false} PostBatchSpec<B>(bodies: seq<B>, url: string, start: int)
    ensures var batch := PostBatch(bodies, url, start);
      && (forall k :: 0 <= k < |batch| ==>
            batch[k].id == start + k && batch[k].httpMethod == "post" && batch[k].url == url && batch[k].body == bodies[k])
      && Bodies(batch) == bodies
  {
    if bodies != [] {
      PostBatchSpec(bodies[1..], url, start + 1);
      var batch := PostBatch(bodies, url, start);
      assert batch[1..] == PostBatch(bodies[1..], url, start + 1);
      assert bodies == [bodies[0]] + bodies[1..];
    }
  }

  /** The ids of a batch, in request order. */
  function Ids<B>(batch: seq<Request<B>>): (ids: seq<int>)
    ensures |ids| == |batch|
  {
    if batch == [] then [] else [batch[0].id] + Ids(batch[1..])
  }

  lemma {:induction false} IdsAt<B>(batch: seq<Request<B>>, k: nat)
    requires k < |batch|
    ensures Ids(batch)[k] == batch[k].id
  {
    if k > 0 { IdsAt(batch[1..], k - 1); }
  }

  /** Batch ids are unique and are exactly `start .. start + |bodies| - 1`. */
  lemma PostBatchIds<B>(bodies: seq<B>, url: string, start: int)
    ensures var ids := Ids(PostBatch(bodies, url, start));
      && (forall i, j :: 0 <= i < j < |ids| ==> ids[i] != ids[j])
      && (forall n :: n in ids <==> start <= n < start + |bodies|)
  {
    PostBatchSpec(bodies, url, start);
    var batch := PostBatch(bodies, url, start);
    var ids := Ids(batch);
    forall k | 0 <= k < |ids| ensures ids[k] == start + k {
      IdsAt(batch, k);
    }
    forall n | start <= n < start + |bodies| ensures n in ids {
      assert ids[n - start] == n;
    }
  }

  /** Appending one body appends one request whose id follows the previous ones
      (the `len(post_datastreams) + 1` numbering of an append loop). */
  lemma {:induction false} PostBatchSnoc<B>(bodies: seq<B>, x: B, url: string, start: int)
    ensures PostBatch(bodies + [x], url, start) == PostBatch(bodies, url, start) + [Request(start + |bodies|, "post", url, x)]
  {
    if bodies != [] {
      assert (bodies + [x])[1..] == bodies[1..] + [x];
      PostBatchSnoc(bodies[1..], x, url, start + 1);
    }
  }

  /** Rows laid end to end, first row first. */
  function Flatten<T>(rows: seq<seq<T>>): seq<T>
  {
    if rows == [] then [] else Flatten(rows[..|rows| - 1]) + rows[|rows| - 1]
  }

  /** The row-major position of column `j` of row `i` in rows of length `n`. */
  function Slot(i: nat, j: nat, n: nat): nat
  {
    i * n + j
  }

  /** Row-major indexing stays inside the rows before row `m`. */
  lemma RowBound(i: nat, j: nat, m: nat, n: nat)
    requires i < m && j < n
    ensures i * n + j < m * n
  {
    var d := m - (i + 1);
    assert d * n >= 0;
    assert m * n == (i + 1) * n + d * n;
  }

  lemma {:induction false} FlattenLength<T>(rows: seq<seq<T>>, n: nat)
    requires forall k :: 0 <= k < |rows| ==> |rows[k]| == n
    ensures |Flatten(rows)| == |rows| * n
  {
    if rows != [] {
      var m := |rows| - 1;
      FlattenLength(rows[..m], n);
      assert |rows| * n == m * n + n;
    }
  }

  /** In rows of equal length `n`, element `j` of row `i` sits at `i * n + j`. */
  lemma {:induction false} FlattenAt<T>(rows: seq<seq<T>>, n: nat, i: nat, j: nat)
    requires forall k :: 0 <= k < |rows| ==> |rows[k]| == n
    requires i < |rows| && j < n
    ensures i * n + j < |Flatten(rows)| && Flatten(rows)[i * n + j] == rows[i][j]
  {
    var m := |rows| - 1;
    var init := rows[..m];
    FlattenLength(init, n);
    FlattenLength(rows, n);
    if i < m {
      FlattenAt(init, n, i, j);
      RowBound(i, j, m, n);
    } else {
      assert i * n == m * n;
    }
  }

  /** Rows of equal length `n` flatten row-major: row `i`, column `j` lands at `Slot(i, j, n)`. */
  lemma FlattenSpec<T>(rows: seq<seq<T>>, n: nat)
    requires forall k :: 0 <= k < |rows| ==> |rows[k]| == n
    ensures |Flatten(rows)| == |rows| * n
    ensures forall i, j :: 0 <= i < |rows| && 0 <= j < n ==>
      Slot(i, j, n) < |Flatten(rows)| && Flatten(rows)[Slot(i, j, n)] == rows[i][j]
  {
    FlattenLength(rows, n);
    forall i, j | 0 <= i < |rows| && 0 <= j < n
      ensures Slot(i, j, n) < |Flatten(rows)| && Flatten(rows)[Slot(i, j, n)] == rows[i][j]
    {
      FlattenAt(rows, n, i, j);
    }
  }

  /** Whether `i` is the first position of `xs` whose element satisfies `p`. */
  predicate FirstAt<T>(xs: seq<T>, p: T -> bool, i: int)
  {
    0 <= i < |xs| && p(xs[i]) && forall e :: 0 <= e < i ==> !p(xs[e])
  }

  /** The first element of `xs` satisfying `p` (`next(x for x in xs if p(x))`, or
      nothing when there is none). */
  function FirstWhere<T>(xs: seq<T>, p: T -> bool): (r: Option<T>)
    ensures r.None? <==> forall i :: 0 <= i < |xs| ==> !p(xs[i])
    ensures r.Some? ==> exists i :: FirstAt(xs, p, i) && r.value == xs[i]
    ensures forall i :: FirstAt(xs, p, i) ==> r == Some(xs[i])
  {
    if xs == [] then None
    else if p(xs[0]) then Some(xs[0])
    else
      var r := FirstWhere(xs[1..], p);
      assert forall i :: FirstAt(xs[1..], p, i) <==> FirstAt(xs, p, i + 1) by {
        forall i ensures FirstAt(xs[1..], p, i) <==> FirstAt(xs, p, i + 1) {
          if 0 <= i < |xs| - 1 {
            assert forall e :: 0 <= e < i ==> xs[1..][e] == xs[e + 1];
          }
        }
      }
      assert forall i :: FirstAt(xs, p, i) ==> i > 0 && FirstAt(xs[1..], p, i - 1);
      r
  }

  /** The entries of `xs` for which `keep` holds, in their original order. */
  function Filter<T>(xs: seq<T>, keep: T -> bool): (ys: seq<T>)
    ensures |ys| <= |xs|
  {
    if xs == [] then [] else (if keep(xs[0]) then [xs[0]] else []) + Filter(xs[1..], keep)
  }

  /** An entry is kept exactly when it is in the input and passes the test. */
  lemma {:induction false} FilterMembers<T>(xs: seq<T>, keep: T -> bool)
    ensures forall x :: x in Filter(xs, keep) <==> x in xs && keep(x)
  {
    if xs != [] {
      FilterMembers(xs[1..], keep);
      assert xs == [xs[0]] + xs[1..];
    }
  }

  /** Filtering keeps the order: it distributes over concatenation. */
  lemma {:induction false} FilterAppend<T>(xs: seq<T>, ys: seq<T>, keep: T -> bool)
    ensures Filter(xs + ys, keep) == Filter(xs, keep) + Filter(ys, keep)
  {
    if xs == [] {
      assert xs + ys == ys;
    } else {
      var head := if keep(xs[0]) then [xs[0]] else [];
      assert (xs + ys)[0] == xs[0] && (xs + ys)[1..] == xs[1..] + ys;
      assert Filter(xs + ys, keep) == head + Filter(xs[1..] + ys, keep);
      FilterAppend(xs[1..], ys, keep);
    }
  }

  /** When every entry passes, nothing is dropped. */
  lemma {:induction false} FilterAll<T>(xs: seq<T>, keep: T -> bool)
    requires forall k :: 0 <= k < |xs| ==> keep(xs[k])
    ensures Filter(xs, keep) == xs
  {
    if xs != [] {
      FilterAll(xs[1..], keep);
    }
  }

  /** The first entry kept by `Filter` is the first entry satisfying the test. */
  lemma {:induction false} FilterFirst<T>(xs: seq<T>, keep: T -> bool)
    ensures Filter(xs, keep) != [] <==> FirstWhere(xs, keep).Some?
    ensures Filter(xs, keep) != [] ==> Filter(xs, keep)[0] == FirstWhere(xs, keep).value
  {
    if xs != [] {
      FilterFirst(xs[1..], keep);
    }
  }
}
