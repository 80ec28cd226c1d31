/** The cluster's job collection as the operator sees it through its client: a list
    filtered by labels and namespace, and Create. */
module Jobs {
  import opened Common
  import opened Kube

  /** A job is listed by client.MatchingLabels(sel) + client.InNamespace(ns). */
  predicate JobMatches(j: Job, sel: Labels, ns: string)
  {
    j.namespace == ns && SelectorMatches(sel, j.labels)
  }

  /** The jobs of `jobs` a filtered List returns, in store order. */
  function Filter(jobs: seq<Job>, sel: Labels, ns: string): (r: seq<Job>)
    ensures |r| <= |jobs|
    ensures forall j {:trigger j in r} :: j in r <==> j in jobs && JobMatches(j, sel, ns)
  {
    if |jobs| == 0 then []
    else
      var last := jobs[|jobs| - 1];
      var init := jobs[..|jobs| - 1];
      assert jobs == init + [last];
      Filter(init, sel, ns) + (if JobMatches(last, sel, ns) then [last] else [])
  }

  lemma FilterAppend(jobs: seq<Job>, j: Job, sel: Labels, ns: string)
    ensures Filter(jobs + [j], sel, ns)
         == Filter(jobs, sel, ns) + (if JobMatches(j, sel, ns) then [j] else [])
  {
    assert (jobs + [j])[..|jobs|] == jobs;
  }

  /** What getJob reports after listing. */
  datatype Lookup = Found(job: Job) | NoMatchingJob | Ambiguous(count: nat) | ListError

  /** getJob's classification of the filtered list: none, more than one, or exactly one. */
  function LookupJob(jobs: seq<Job>, sel: Labels, ns: string, listFails: bool): Lookup
  {
    if listFails then ListError
    else
      var found := Filter(jobs, sel, ns);
      if |found| == 0 then NoMatchingJob
      else if |found| > 1 then Ambiguous(|found|)
      else Found(found[0])
  }

  /** The lookup reports "no match" exactly when no stored job carries the labels in the
      namespace, "ambiguous" exactly when several do, and otherwise the single one. */
  lemma LookupJobCardinality(jobs: seq<Job>, sel: Labels, ns: string)
    ensures LookupJob(jobs, sel, ns, false).NoMatchingJob?
        <==> forall j :: j in jobs ==> !JobMatches(j, sel, ns)
    ensures LookupJob(jobs, sel, ns, false).Ambiguous?
        <==> TwoMatch(jobs, sel, ns)
    ensures LookupJob(jobs, sel, ns, false).Found? ==>
        var j := LookupJob(jobs, sel, ns, false).job;
        j in jobs && JobMatches(j, sel, ns) &&
        forall a :: 0 <= a < |jobs| && JobMatches(jobs[a], sel, ns) ==> jobs[a] == j
  {
    var found := Filter(jobs, sel, ns);
    if |found| > 0 { assert found[0] in found; }
    else {
      forall j | j in jobs ensures !JobMatches(j, sel, ns) {
        assert j !in found;
      }
    }
    TwoMatchesIffLong(jobs, sel, ns);
    if |found| == 1 {
      forall a | 0 <= a < |jobs| && JobMatches(jobs[a], sel, ns) ensures jobs[a] == found[0] {
        assert jobs[a] in found;
      }
    }
  }

  predicate TwoMatch(jobs: seq<Job>, sel: Labels, ns: string)
  {
    exists a, b :: 0 <= a < b < |jobs| && JobMatches(jobs[a], sel, ns) && JobMatches(jobs[b], sel, ns)
  }

  lemma TwoMatchesIffLong(jobs: seq<Job>, sel: Labels, ns: string)
    ensures |Filter(jobs, sel, ns)| > 1 <==> TwoMatch(jobs, sel, ns)
  {
    if |Filter(jobs, sel, ns)| > 1 { LongHasTwo(jobs, sel, ns); }
    if TwoMatch(jobs, sel, ns) {
      var a, b :| 0 <= a < b < |jobs| && JobMatches(jobs[a], sel, ns) && JobMatches(jobs[b], sel, ns);
      TwoIsLong(jobs, sel, ns, a, b);
    }
  }

  lemma {:induction false} LongHasTwo(jobs: seq<Job>, sel: Labels, ns: string)
    requires |Filter(jobs, sel, ns)| > 1
    ensures TwoMatch(jobs, sel, ns)
    decreases |jobs|
  {
    var last := jobs[|jobs| - 1];
    var init := jobs[..|jobs| - 1];
    assert jobs == init + [last];
    FilterAppend(init, last, sel, ns);
    if |Filter(init, sel, ns)| > 1 {
      LongHasTwo(init, sel, ns);
      var a, b :| 0 <= a < b < |init| && JobMatches(init[a], sel, ns) && JobMatches(init[b], sel, ns);
      assert jobs[a] == init[a] && jobs[b] == init[b];
    } else {
      assert JobMatches(last, sel, ns);
      var f := Filter(init, sel, ns)[0];
      assert f in Filter(init, sel, ns);
      var a :| 0 <= a < |init| && init[a] == f;
      assert jobs[a] == f && jobs[|jobs| - 1] == last;
    }
  }

  lemma {:induction false} TwoIsLong(jobs: seq<Job>, sel: Labels, ns: string, a: nat, b: nat)
    requires a < b < |jobs| && JobMatches(jobs[a], sel, ns) && JobMatches(jobs[b], sel, ns)
    ensures |Filter(jobs, sel, ns)| > 1
    decreases |jobs|
  {
    var last := jobs[|jobs| - 1];
    var init := jobs[..|jobs| - 1];
    assert jobs == init + [last];
    FilterAppend(init, last, sel, ns);
    if b < |jobs| - 1 {
      assert init[a] == jobs[a] && init[b] == jobs[b];
      TwoIsLong(init, sel, ns, a, b);
    } else {
      assert init[a] == jobs[a];
      assert init[a] in Filter(init, sel, ns);
    }
  }

  /** The jobs behind the API client. Whether the client's List and Create calls fail is
      fixed per store: the model does not say why a call to the API server fails. */
  class JobStore {
    var jobs: seq<Job>
    const listFails: bool
    const createFails: bool

    constructor (initial: seq<Job>, listFails: bool, createFails: bool)
      ensures jobs == initial && this.listFails == listFails && this.createFails == createFails
    {
      jobs := initial;
      this.listFails := listFails;
      this.createFails := createFails;
    }

    /** client.List with MatchingLabels(sel) and InNamespace(ns): the matching jobs in
        store order, or None when the call fails. */
    method List(sel: Labels, ns: string) returns (items: Option<seq<Job>>)
      ensures listFails <==> items.None?
      ensures items.Some? ==> items.value == Filter(jobs, sel, ns)
    {
      if listFails {
        return None;
      }
      items := Some(Filter(jobs, sel, ns));
    }

    /** client.Create: the job is added to the store unless the call fails. */
    method Create(job: Job) returns (ok: bool)
      modifies this
      ensures ok <==> !createFails
      ensures jobs == if ok then old(jobs) + [job] else old(jobs)
    {
      if createFails {
        return false;
      }
      jobs := jobs + [job];
      ok := true;
    }
  }

  /** The listing part of every generation's getJob: list by labels and namespace, then
      classify by how many jobs came back. */
  method GetJob(store: JobStore, sel: Labels, ns: string) returns (l: Lookup)
    ensures l == LookupJob(store.jobs, sel, ns, store.listFails)
  {
    var items := store.List(sel, ns);
    if items.None? {
      return ListError;
    }
    var n := |items.value|;
    if n == 0 {
      return NoMatchingJob;
    } else if n > 1 {
      return Ambiguous(n);
    }
    l := Found(items.value[0]);
  }
}
