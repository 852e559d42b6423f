/** Vocabulary of the batch lab: three map tasks, two reduce tasks, three workers, and partition files. The
    splits and the partition function are those of any job. */
module BatchShared {
  datatype Option<+T> = None | Some(value: T)

  type Url = string

  datatype MapTask = M0 | M1 | M2
  datatype ReduceTask = R0 | R1
  datatype TaskId = Map(m: MapTask) | Red(r: ReduceTask)
  datatype Worker = W1 | W2 | W3
  datatype NodeId = JT | W(w: Worker)

  const MAP_TASKS: seq<MapTask> := [M0, M1, M2]
  const TASK_ORDER: seq<TaskId> := [Map(M0), Map(M1), Map(M2), Red(R0), Red(R1)]
  const WORKERS: seq<Worker> := [W1, W2, W3]

  const RECORD_COST: nat := 4
  const MAP_RECORDS: nat := 8
  const MAP_EXEC_TICKS: nat := 32
  const DISK_WRITE_TICKS: nat := 8
  const OUTPUT_TICKS: nat := 6
  const PING_EVERY: nat := 20
  const DEAD_AFTER: nat := 50
  const FETCH_RETRY: nat := 30

  /** What a job computes on: its splits, the reducer of each URL, how many records each reducer is charged, and
      the order rows are displayed in. */
  datatype Job = Job(split: MapTask -> seq<Url>, part: Url -> ReduceTask, execs: ReduceTask -> nat, before: (Row, Row) -> bool)

  datatype Row = Row(url: Url, n: nat)

  /** Counts per URL in the order the URLs were first met. */
  type PartFile = seq<Row>

  function AddTo(f: PartFile, u: Url, n: nat): PartFile {
    if f == [] then [Row(u, n)]
    else if f[0].url == u then [Row(u, f[0].n + n)] + f[1..]
    else [f[0]] + AddTo(f[1..], u, n)
  }

  function CountIn(f: PartFile, u: Url): nat {
    if f == [] then 0 else if f[0].url == u then f[0].n else CountIn(f[1..], u)
  }

  /** One row a URL, and no empty row. */
  ghost predicate FileOk(f: PartFile) {
    (forall i, j :: 0 <= i < j < |f| ==> f[i].url != f[j].url) && forall i :: 0 <= i < |f| ==> f[i].n > 0
  }

  /** The counts of a split for one reducer. */
  function PartOf(job: Job, split: seq<Url>, r: ReduceTask): PartFile {
    if split == [] then []
    else
      var f, u := PartOf(job, split[..|split| - 1], r), split[|split| - 1];
      if job.part(u) == r then AddTo(f, u, 1) else f
  }

  function Occurs(s: seq<Url>, u: Url): nat {
    if s == [] then 0 else Occurs(s[..|s| - 1], u) + if s[|s| - 1] == u then 1 else 0
  }

  function Merge(counts: PartFile, f: PartFile): PartFile {
    if f == [] then counts else AddTo(Merge(counts, f[..|f| - 1]), f[|f| - 1].url, f[|f| - 1].n)
  }

  /** What the reducer r outputs when nothing goes wrong. */
  function Expected(job: Job, r: ReduceTask): PartFile {
    Merge(Merge(Merge([], PartOf(job, job.split(M0), r)), PartOf(job, job.split(M1), r)), PartOf(job, job.split(M2), r))
  }

  /** Hits of a URL in the whole input. */
  function Hits(job: Job, u: Url): nat {
    Occurs(job.split(M0), u) + Occurs(job.split(M1), u) + Occurs(job.split(M2), u)
  }

  method MapPartitions(job: Job, split: seq<Url>) returns (zero: PartFile, one: PartFile)
    ensures zero == PartOf(job, split, R0) && one == PartOf(job, split, R1)
  {
    zero, one := [], [];
    for i := 0 to |split|
      invariant zero == PartOf(job, split[..i], R0) && one == PartOf(job, split[..i], R1)
    {
      assert split[..i + 1][..i] == split[..i];
      if job.part(split[i]) == R0 { zero := AddTo(zero, split[i], 1); } else { one := AddTo(one, split[i], 1); }
    }
    assert split[..|split|] == split;
  }

  // ---------- counting ----------

  lemma {:induction false} AddCounts(f: PartFile, u: Url, n: nat, x: Url)
    ensures CountIn(AddTo(f, u, n), x) == CountIn(f, x) + if x == u then n else 0
  {
    if f != [] { AddCounts(f[1..], u, n, x); }
  }

  lemma {:induction false} AddUrls(f: PartFile, u: Url, n: nat)
    ensures forall row :: row in AddTo(f, u, n) ==> row.url == u || row in f
  {
    if f != [] {
      AddUrls(f[1..], u, n);
      assert f == [f[0]] + f[1..];
    }
  }

  lemma {:induction false} AddOk(f: PartFile, u: Url, n: nat)
    requires FileOk(f) && n > 0
    ensures FileOk(AddTo(f, u, n))
  {
    if f != [] && f[0].url != u {
      AddOk(f[1..], u, n);
      AddUrls(f[1..], u, n);
      assert forall row :: row in f[1..] ==> row.url != f[0].url;
    }
  }

  lemma {:induction false} PartCounts(job: Job, split: seq<Url>, r: ReduceTask, u: Url)
    ensures CountIn(PartOf(job, split, r), u) == if job.part(u) == r then Occurs(split, u) else 0
    ensures FileOk(PartOf(job, split, r))
  {
    if split != [] {
      var f, x := PartOf(job, split[..|split| - 1], r), split[|split| - 1];
      PartCounts(job, split[..|split| - 1], r, u);
      AddCounts(f, x, 1, u);
      AddOk(f, x, 1);
    }
  }

  lemma {:induction false} CountLast(f: PartFile, u: Url)
    requires FileOk(f) && f != []
    ensures CountIn(f, u) == CountIn(f[..|f| - 1], u) + if f[|f| - 1].url == u then f[|f| - 1].n else 0
  {
    if |f| > 1 {
      CountLast(f[1..], u);
      assert f[1..][..|f| - 2] == f[..|f| - 1][1..];
    }
  }

  lemma {:induction false} MergeCounts(counts: PartFile, f: PartFile, u: Url)
    requires FileOk(counts) && FileOk(f)
    ensures CountIn(Merge(counts, f), u) == CountIn(counts, u) + CountIn(f, u) && FileOk(Merge(counts, f))
  {
    if f != [] {
      var front, last := f[..|f| - 1], f[|f| - 1];
      MergeCounts(counts, front, u);
      AddCounts(Merge(counts, front), last.url, last.n, u);
      AddOk(Merge(counts, front), last.url, last.n);
      CountLast(f, u);
    }
  }

  lemma ExpectedCounts(job: Job, r: ReduceTask, u: Url)
    ensures CountIn(Expected(job, r), u) == if job.part(u) == r then Hits(job, u) else 0
    ensures FileOk(Expected(job, r))
  {
    var a, b, c := PartOf(job, job.split(M0), r), PartOf(job, job.split(M1), r), PartOf(job, job.split(M2), r);
    PartCounts(job, job.split(M0), r, u);
    PartCounts(job, job.split(M1), r, u);
    PartCounts(job, job.split(M2), r, u);
    MergeCounts([], a, u);
    MergeCounts(Merge([], a), b, u);
    MergeCounts(Merge(Merge([], a), b), c, u);
  }

  /** A row is in a file once if it carries the URL's count, and otherwise not at all. */
  lemma {:induction false} RowOnce(f: PartFile, row: Row)
    requires FileOk(f)
    ensures multiset(f)[row] == if row.n > 0 && CountIn(f, row.url) == row.n then 1 else 0
  {
    if f != [] {
      RowOnce(f[1..], row);
      assert f == [f[0]] + f[1..];
      Absent(f[1..], f[0].url);
    }
  }

  lemma {:induction false} Absent(f: PartFile, u: Url)
    requires forall i :: 0 <= i < |f| ==> f[i].url != u
    ensures CountIn(f, u) == 0
  {
    if f != [] { Absent(f[1..], u); }
  }
}
