/** The in-memory job store (lib/job-store.ts): one `Map` from job id to
    job, shared by the job routes. `getAllJobs` lists the jobs newest first;
    the engine's `Array.prototype.sort` is stable, so jobs created at the
    same instant keep their insertion order. */
module JobStore {
  import opened Wrappers
  import opened Seqs
  import opened Types
  import opened OrderedMap

  /** Jobs ordered by `createdAt`, latest first. */
  predicate NewestFirst(js: seq<Job>)
  {
    forall i, j :: 0 <= i < j < |js| ==> js[i].createdAt >= js[j].createdAt
  }

  /** Inserts `x` before the first job that is not newer than it. */
  function Insert(x: Job, s: seq<Job>): (r: seq<Job>)
    ensures multiset(r) == multiset([x] + s)
  {
    if s == [] || x.createdAt >= s[0].createdAt then [x] + s
    else
      var r := [s[0]] + Insert(x, s[1..]);
      assert s == [s[0]] + s[1..];
      assert [x] + s == [x] + [s[0]] + s[1..];
      r
  }

  /** Jobs created no later than `bound`. */
  predicate NotAfter(js: seq<Job>, bound: int)
  {
    forall i :: 0 <= i < |js| ==> js[i].createdAt <= bound
  }

  lemma {:induction false} InsertNotAfter(x: Job, s: seq<Job>, bound: int)
    requires x.createdAt <= bound && NotAfter(s, bound)
    ensures NotAfter(Insert(x, s), bound)
    decreases |s|
  {
    if s != [] && x.createdAt < s[0].createdAt {
      InsertNotAfter(x, s[1..], bound);
    }
  }

  lemma {:induction false} InsertNewestFirst(x: Job, s: seq<Job>)
    requires NewestFirst(s)
    ensures NewestFirst(Insert(x, s))
    decreases |s|
  {
    if s != [] && x.createdAt < s[0].createdAt {
      var tail := Insert(x, s[1..]);
      InsertNewestFirst(x, s[1..]);
      InsertNotAfter(x, s[1..], s[0].createdAt);
      var r := [s[0]] + tail;
      assert Insert(x, s) == r;
      forall i, j | 0 <= i < j < |r| ensures r[i].createdAt >= r[j].createdAt {
        assert r[j] == tail[j - 1];
        if i > 0 {
          assert r[i] == tail[i - 1];
        }
      }
    }
  }

  /** The comparator `(a, b) => b.createdAt - a.createdAt` under a stable sort. */
  function SortNewestFirst(js: seq<Job>): (r: seq<Job>)
    ensures NewestFirst(r)
    ensures multiset(r) == multiset(js)
    ensures |r| == |js|
  {
    if js == [] then []
    else
      var rest := SortNewestFirst(js[1..]);
      InsertNewestFirst(js[0], rest);
      var r := Insert(js[0], rest);
      assert js == [js[0]] + js[1..];
      assert |r| == |multiset(r)| == |multiset(js)| == |js|;
      r
  }

  /** The jobs created at instant `t`. */
  function CreatedAt(t: int): Job -> bool
  {
    (j: Job) => j.createdAt == t
  }

  lemma {:induction false} InsertStable(x: Job, s: seq<Job>, t: int)
    requires NewestFirst(s)
    ensures Filter(Insert(x, s), CreatedAt(t)) == Filter([x] + s, CreatedAt(t))
    decreases |s|
  {
    if s == [] || x.createdAt >= s[0].createdAt {
    } else {
      assert NewestFirst(s[1..]);
      InsertStable(x, s[1..], t);
      var p := CreatedAt(t);
      assert Insert(x, s) == [s[0]] + Insert(x, s[1..]);
      FilterAppend([s[0]], Insert(x, s[1..]), p);
      FilterAppend([x], s[1..], p);
      assert s == [s[0]] + s[1..];
      FilterAppend([s[0]], s[1..], p);
      FilterAppend([x], s, p);
      if x.createdAt == t {
        // Every job of `s` ahead of `x`'s place is strictly newer than `t`.
        assert !p(s[0]);
      } else {
        assert Filter([x], p) == [];
      }
    }
  }

  /** The sort is stable: jobs with the same `createdAt` keep their order. */
  lemma {:induction false} SortStable(js: seq<Job>, t: int)
    ensures Filter(SortNewestFirst(js), CreatedAt(t)) == Filter(js, CreatedAt(t))
    decreases |js|
  {
    if js != [] {
      var p := CreatedAt(t);
      var rest := SortNewestFirst(js[1..]);
      calc {
        Filter(SortNewestFirst(js), p);
        Filter(Insert(js[0], rest), p);
        { InsertStable(js[0], rest, t); }
        Filter([js[0]] + rest, p);
        { FilterAppend([js[0]], rest, p); }
        Filter([js[0]], p) + Filter(rest, p);
        { SortStable(js[1..], t); }
        Filter([js[0]], p) + Filter(js[1..], p);
        { FilterAppend([js[0]], js[1..], p); }
        Filter([js[0]] + js[1..], p);
        { assert js == [js[0]] + js[1..]; }
        Filter(js, p);
      }
    }
  }

  /** A list that is already newest first is left as it is. */
  lemma {:induction false} SortSorted(js: seq<Job>)
    requires NewestFirst(js)
    ensures SortNewestFirst(js) == js
    decreases |js|
  {
    if js != [] {
      assert NewestFirst(js[1..]);
      SortSorted(js[1..]);
      assert js == [js[0]] + js[1..];
    }
  }

  /** The store. */
  class Store {
    var jobs: OMap<Job>

    /** Every job is stored under its own id. */
    ghost predicate Valid()
      reads this
    {
      jobs.Valid() && forall k :: k in jobs.vals ==> jobs.vals[k].id == k
    }

    constructor ()
      ensures Valid() && jobs == Empty()
    {
      jobs := Empty();
    }

    /** `getJob(id)` */
    function GetJob(id: string): (r: Option<Job>)
      reads this
      requires Valid()
      ensures r.Some? <==> id in jobs.keys
      ensures r.Some? ==> r.value.id == id
    {
      jobs.Get(id)
    }

    /** `setJob(job)`: the job is stored under its id, replacing any job of
        the same id in place; every other job is kept. */
    method SetJob(job: Job)
      requires Valid()
      modifies this
      ensures Valid()
      ensures jobs == old(jobs).Set(job.id, job)
      ensures GetJob(job.id) == Some(job)
      ensures forall id :: id != job.id ==> GetJob(id) == old(GetJob(id))
    {
      jobs := jobs.Set(job.id, job);
    }

    /** `getAllJobs()` */
    function AllJobs(): (r: seq<Job>)
      reads this
      requires Valid()
      ensures NewestFirst(r)
      ensures multiset(r) == multiset(jobs.Values())
      ensures forall j :: j in r <==> exists id :: id in jobs.keys && GetJob(id) == Some(j)
    {
      var vs := jobs.Values();
      var r := SortNewestFirst(vs);
      forall j ensures j in r <==> j in vs {
        assert j in r <==> j in multiset(r);
        assert j in vs <==> j in multiset(vs);
      }
      forall j | j in vs ensures exists id :: id in jobs.keys && GetJob(id) == Some(j) {
        var i :| 0 <= i < |vs| && vs[i] == j;
        assert GetJob(jobs.keys[i]) == Some(j);
      }
      forall j | exists id :: id in jobs.keys && GetJob(id) == Some(j) ensures j in vs {
        var id :| id in jobs.keys && GetJob(id) == Some(j);
        var i :| 0 <= i < |jobs.keys| && jobs.keys[i] == id;
        assert vs[i] == j;
      }
      r
    }
  }
}
