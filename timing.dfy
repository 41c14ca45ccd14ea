/**
 * The run-length helper of the timing diagram script (count_running_time): given the
 * sequence of states a task was in, one per time step, it lists every maximal stretch of
 * steps in which the task was in the running state, as (first step, number of steps).
 */
module RunningTime {
  import opened Wrappers

  /** One stretch of running: the (cluster_start, count) pair. */
  datatype Cluster = Cluster(start: int, count: int)

  /** The loop's variables after a prefix of the states: clusters, count and cluster_start. */
  datatype ScanState = ScanState(clusters: seq<Cluster>, count: int, clusterStart: Option<int>)

  /**
   * One pass of the loop body at step `idx` with state `num`: a running state extends
   * the open stretch (opening it at this step when none is open); any other state closes
   * an open stretch.
   */
  function Next(st: ScanState, idx: int, num: int, running: int): ScanState
    requires st.count > 0 ==> st.clusterStart.Some?
  {
    if num == running then
      ScanState(st.clusters, st.count + 1, if st.clusterStart.None? then Some(idx) else st.clusterStart)
    else if st.count > 0 then
      ScanState(st.clusters + [Cluster(st.clusterStart.value, st.count)], 0, None)
    else st
  }

  /** The loop state after processing `states`. */
  function Scan(states: seq<int>, running: int): (st: ScanState)
    ensures 0 <= st.count <= |states|
    ensures st.clusterStart == if st.count > 0 then Some(|states| - st.count) else None
  {
    if states == [] then ScanState([], 0, None)
    else Next(Scan(states[..|states| - 1], running), |states| - 1, states[|states| - 1], running)
  }

  lemma ScanSnoc(states: seq<int>, k: nat, running: int)
    requires k < |states|
    ensures Scan(states[..k + 1], running) == Next(Scan(states[..k], running), k, states[k], running)
  {
    assert states[..k + 1][..k] == states[..k];
  }

  /** count_running_time: the clusters closed during the scan, plus the one still open at the end. */
  function Runs(states: seq<int>, running: int): (clusters: seq<Cluster>)
  {
    var st := Scan(states, running);
    if st.count > 0 then st.clusters + [Cluster(st.clusterStart.value, st.count)] else st.clusters
  }

  /** count_running_time, as the loop over the states the source runs. */
  method CountRunningTime(states: seq<int>, running: int) returns (clusters: seq<Cluster>)
    ensures clusters == Runs(states, running)
  {
    clusters := [];
    var count := 0;
    var clusterStart: Option<int> := None;
    var idx := 0;
    while idx < |states|
      invariant 0 <= idx <= |states|
      invariant ScanState(clusters, count, clusterStart) == Scan(states[..idx], running)
    {
      assert states[..idx + 1][..idx] == states[..idx];
      var num := states[idx];
      if num == running {
        count := count + 1;
        if clusterStart.None? {
          clusterStart := Some(idx);
        }
      } else if count > 0 {
        clusters := clusters + [Cluster(clusterStart.value, count)];
        count := 0;
        clusterStart := None;
      }
      idx := idx + 1;
    }
    assert states[..|states|] == states;
    if count > 0 {
      clusters := clusters + [Cluster(clusterStart.value, count)];
    }
  }

  /** `c` is a maximal stretch of `running` in `states`: non-empty, all running, and bounded by non-running steps or the ends. */
  predicate MaximalRun(states: seq<int>, running: int, c: Cluster) {
    && 1 <= c.count && 0 <= c.start && c.start + c.count <= |states|
    && (forall i :: c.start <= i < c.start + c.count ==> states[i] == running)
    && (c.start == 0 || states[c.start - 1] != running)
    && (c.start + c.count == |states| || states[c.start + c.count] != running)
  }

  /** Every stretch ends strictly before the next one starts. */
  predicate Separated(clusters: seq<Cluster>) {
    forall k, l :: 0 <= k < l < |clusters| ==> clusters[k].start + clusters[k].count < clusters[l].start
  }

  /** Step `i` lies in one of the stretches. */
  predicate Covered(clusters: seq<Cluster>, i: int) {
    exists k :: 0 <= k < |clusters| && clusters[k].start <= i < clusters[k].start + clusters[k].count
  }

  /** The number of steps in `running`. */
  function Occurrences(states: seq<int>, running: int): (n: nat)
    ensures n <= |states|
  {
    if states == [] then 0
    else Occurrences(states[..|states| - 1], running) + (if states[|states| - 1] == running then 1 else 0)
  }

  /** The sum of the stretches' lengths. */
  function Total(clusters: seq<Cluster>): int {
    if clusters == [] then 0 else Total(clusters[..|clusters| - 1]) + clusters[|clusters| - 1].count
  }

  lemma TotalAppend(clusters: seq<Cluster>, c: Cluster)
    ensures Total(clusters + [c]) == Total(clusters) + c.count
  {
    assert (clusters + [c])[..|clusters|] == clusters;
  }

  lemma MaximalRunExtends(states: seq<int>, running: int, c: Cluster, x: int)
    requires MaximalRun(states, running, c) && c.start + c.count < |states|
    ensures MaximalRun(states + [x], running, c)
  {
    var t := states + [x];
    assert forall i :: 0 <= i < |states| ==> t[i] == states[i];
  }

  lemma CoveredExtends(clusters: seq<Cluster>, c: Cluster, i: int)
    requires Covered(clusters, i)
    ensures Covered(clusters + [c], i)
  {
    var k :| 0 <= k < |clusters| && clusters[k].start <= i < clusters[k].start + clusters[k].count;
    assert (clusters + [c])[k] == clusters[k];
  }

  lemma CoveredByLast(clusters: seq<Cluster>, c: Cluster, i: int)
    requires c.start <= i < c.start + c.count
    ensures Covered(clusters + [c], i)
  {
    assert (clusters + [c])[|clusters|] == c;
  }

  /** The open stretch is the trailing run of `running`, preceded by a non-running step or the start. */
  lemma {:induction false} ScanOpenRun(states: seq<int>, running: int)
    ensures forall i :: |states| - Scan(states, running).count <= i < |states| ==> states[i] == running
    ensures Scan(states, running).count < |states| ==> states[|states| - Scan(states, running).count - 1] != running
  {
    if states != [] {
      ScanOpenRun(states[..|states| - 1], running);
    }
  }

  /** The closed stretches are maximal runs, all ending before the open stretch. */
  lemma {:induction false} ScanClosedRuns(states: seq<int>, running: int)
    ensures forall k :: 0 <= k < |Scan(states, running).clusters| ==>
      MaximalRun(states, running, Scan(states, running).clusters[k])
    ensures forall k :: 0 <= k < |Scan(states, running).clusters| ==>
      Scan(states, running).clusters[k].start + Scan(states, running).clusters[k].count < |states| - Scan(states, running).count
  {
    if states != [] {
      var init, x := states[..|states| - 1], states[|states| - 1];
      assert states == init + [x];
      ScanClosedRuns(init, running);
      ScanOpenRun(init, running);
      var prev := Scan(init, running);
      forall k | 0 <= k < |prev.clusters|
        ensures MaximalRun(states, running, prev.clusters[k])
      {
        MaximalRunExtends(init, running, prev.clusters[k], x);
      }
    }
  }

  lemma SeparatedAppend(clusters: seq<Cluster>, c: Cluster)
    requires Separated(clusters)
    requires forall k :: 0 <= k < |clusters| ==> clusters[k].start + clusters[k].count < c.start
    ensures Separated(clusters + [c])
  {
    var t := clusters + [c];
    forall k, l | 0 <= k < l < |t|
      ensures t[k].start + t[k].count < t[l].start
    {
      if l < |clusters| {
        assert t[k] == clusters[k] && t[l] == clusters[l];
      } else {
        assert t[k] == clusters[k] && t[l] == c;
      }
    }
  }

  /** The closed stretches are separated. */
  lemma {:induction false} ScanSeparated(states: seq<int>, running: int)
    ensures Separated(Scan(states, running).clusters)
  {
    if states != [] {
      var init := states[..|states| - 1];
      ScanSeparated(init, running);
      ScanClosedRuns(init, running);
      var prev := Scan(init, running);
      if states[|states| - 1] != running && prev.count > 0 {
        SeparatedAppend(prev.clusters, Cluster(prev.clusterStart.value, prev.count));
      }
    }
  }

  /** Every running step before the open stretch lies in a closed stretch. */
  lemma {:induction false} ScanCovered(states: seq<int>, running: int)
    ensures forall i :: 0 <= i < |states| - Scan(states, running).count && states[i] == running ==>
      Covered(Scan(states, running).clusters, i)
  {
    if states != [] {
      var init, x := states[..|states| - 1], states[|states| - 1];
      ScanCovered(init, running);
      var prev := Scan(init, running);
      var st := Scan(states, running);
      if x != running && prev.count > 0 {
        var c := Cluster(prev.clusterStart.value, prev.count);
        forall i | 0 <= i < |states| && states[i] == running
          ensures Covered(st.clusters, i)
        {
          if i < |init| - prev.count {
            CoveredExtends(prev.clusters, c, i);
          } else {
            CoveredByLast(prev.clusters, c, i);
          }
        }
      }
    }
  }

  /** The closed stretches and the open one account for every running step. */
  lemma {:induction false} ScanTotal(states: seq<int>, running: int)
    ensures Total(Scan(states, running).clusters) + Scan(states, running).count == Occurrences(states, running)
  {
    if states != [] {
      var init := states[..|states| - 1];
      ScanTotal(init, running);
      var prev := Scan(init, running);
      if prev.count > 0 {
        TotalAppend(prev.clusters, Cluster(prev.clusterStart.value, prev.count));
      }
    }
  }

  /** Every listed stretch is a maximal run of the running state. */
  lemma RunsAreMaximal(states: seq<int>, running: int)
    ensures forall k :: 0 <= k < |Runs(states, running)| ==> MaximalRun(states, running, Runs(states, running)[k])
  {
    ScanClosedRuns(states, running);
    ScanOpenRun(states, running);
  }

  /** Stretches are listed in order of their start and never overlap or touch. */
  lemma RunsAreSeparated(states: seq<int>, running: int)
    ensures Separated(Runs(states, running))
  {
    ScanSeparated(states, running);
    ScanClosedRuns(states, running);
    var st := Scan(states, running);
    if st.count > 0 {
      SeparatedAppend(st.clusters, Cluster(st.clusterStart.value, st.count));
    }
  }

  /** Every running step lies in some listed stretch. */
  lemma RunsCoverEveryRunningStep(states: seq<int>, running: int)
    ensures forall i :: 0 <= i < |states| && states[i] == running ==> Covered(Runs(states, running), i)
  {
    ScanCovered(states, running);
    var st := Scan(states, running);
    if st.count > 0 {
      var c := Cluster(st.clusterStart.value, st.count);
      forall i | 0 <= i < |states| && states[i] == running
        ensures Covered(Runs(states, running), i)
      {
        if i < |states| - st.count {
          CoveredExtends(st.clusters, c, i);
        } else {
          CoveredByLast(st.clusters, c, i);
        }
      }
    }
  }

  /** The lengths of the stretches add up to the number of running steps. */
  lemma RunsCountEveryOccurrence(states: seq<int>, running: int)
    ensures Total(Runs(states, running)) == Occurrences(states, running)
  {
    ScanTotal(states, running);
    var st := Scan(states, running);
    if st.count > 0 {
      TotalAppend(st.clusters, Cluster(st.clusterStart.value, st.count));
    }
  }

  /** No stretch is listed exactly when the task never runs. */
  lemma NoRunsIffNeverRunning(states: seq<int>, running: int)
    ensures Runs(states, running) == [] <==> running !in states
  {
    var r := Runs(states, running);
    RunsAreMaximal(states, running);
    RunsCoverEveryRunningStep(states, running);
    if r != [] {
      assert states[r[0].start] == running;
    }
    if running in states {
      var i :| 0 <= i < |states| && states[i] == running;
      assert Covered(r, i);
    }
  }

  /** The first example of the source's documentation. */
  lemma FirstExample()
    ensures Runs([0, 2, 2, 2, 0, 2, 2, 2, 2, 2, 1, 2, 2], 2) == [Cluster(1, 3), Cluster(5, 5), Cluster(11, 2)]
  {
    var s := [0, 2, 2, 2, 0, 2, 2, 2, 2, 2, 1, 2, 2];
    assert s[..0] == [];
    ScanSnoc(s, 0, 2); ScanSnoc(s, 1, 2); ScanSnoc(s, 2, 2); ScanSnoc(s, 3, 2);
    ScanSnoc(s, 4, 2); ScanSnoc(s, 5, 2); ScanSnoc(s, 6, 2); ScanSnoc(s, 7, 2);
    ScanSnoc(s, 8, 2); ScanSnoc(s, 9, 2); ScanSnoc(s, 10, 2); ScanSnoc(s, 11, 2);
    ScanSnoc(s, 12, 2);
    assert s[..13] == s;
  }

  /** The second example of the source's documentation. */
  lemma SecondExample()
    ensures Runs([1, 1, 2, 2, 2, 2, 1, 1, 2, 2, 2, 2, 2], 2) == [Cluster(2, 4), Cluster(8, 5)]
  {
    var s := [1, 1, 2, 2, 2, 2, 1, 1, 2, 2, 2, 2, 2];
    assert s[..0] == [];
    ScanSnoc(s, 0, 2); ScanSnoc(s, 1, 2); ScanSnoc(s, 2, 2); ScanSnoc(s, 3, 2);
    ScanSnoc(s, 4, 2); ScanSnoc(s, 5, 2); ScanSnoc(s, 6, 2); ScanSnoc(s, 7, 2);
    ScanSnoc(s, 8, 2); ScanSnoc(s, 9, 2); ScanSnoc(s, 10, 2); ScanSnoc(s, 11, 2);
    ScanSnoc(s, 12, 2);
    assert s[..13] == s;
  }
}
