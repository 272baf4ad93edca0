/** Which tasks of a job form one stage: those that depend on the same tasks, in whatever order they name them. */
module StageLaws {
  import opened Text
  import opened Records
  import opened Placement
  import opened Scheduler
  import Sorting

  // ---------- the order of names ----------

  lemma {:induction false} LessOrders(a: string, b: string)
    ensures !(StringLess(a, b) && StringLess(b, a))
    ensures StringLess(a, b) || StringLess(b, a) || a == b
  {
    if |a| > 0 && |b| > 0 && a[0] == b[0] {
      LessOrders(a[1..], b[1..]);
      assert a == [a[0]] + a[1..] && b == [b[0]] + b[1..];
    }
  }

  /** "not after" chains. */
  lemma {:induction false} LessChains(a: string, b: string, c: string)
    requires !StringLess(a, b) && !StringLess(b, c)
    ensures !StringLess(a, c)
  {
    if |a| > 0 && |b| > 0 && |c| > 0 && a[0] == b[0] == c[0] {
      LessChains(a[1..], b[1..], c[1..]);
    }
  }

  lemma LessIsStrictWeak()
    ensures Sorting.StrictWeak(StringLess)
  {
    forall a, b | StringLess(a, b) ensures !StringLess(b, a) { LessOrders(a, b); }
    forall a, b, c | !StringLess(a, b) && !StringLess(b, c) ensures !StringLess(a, c) { LessChains(a, b, c); }
  }

  /** The least name comes first. */
  lemma FirstIsLeast(s: seq<string>, x: string)
    requires Sorting.Ordered(s, StringLess) && x in s
    ensures !StringLess(x, s[0])
  {
    LessOrders(s[0], s[0]);
  }

  lemma SameMembers(a: seq<string>, b: seq<string>, x: string)
    requires multiset(a) == multiset(b) && x in a
    ensures x in b
  {
    assert x in multiset(a);
    assert x in multiset(b);
  }

  lemma SameTails(a: seq<string>, b: seq<string>)
    requires multiset(a) == multiset(b) && |a| > 0 && |b| > 0 && a[0] == b[0]
    ensures multiset(a[1..]) == multiset(b[1..])
  {
    assert a == [a[0]] + a[1..] && b == [b[0]] + b[1..];
    assert multiset(a[1..]) == multiset(a) - multiset{a[0]};
    assert multiset(b[1..]) == multiset(b) - multiset{b[0]};
  }

  lemma {:induction false} SortedOnlyOneWay(a: seq<string>, b: seq<string>)
    requires Sorting.Ordered(a, StringLess) && Sorting.Ordered(b, StringLess) && multiset(a) == multiset(b)
    ensures a == b
  {
    hide StringLess;
    assert |a| == |multiset(a)| == |multiset(b)| == |b|;
    if |a| > 0 {
      SameMembers(a, b, a[0]);
      SameMembers(b, a, b[0]);
      FirstIsLeast(b, a[0]);
      FirstIsLeast(a, b[0]);
      LessOrders(a[0], b[0]);
      SameTails(a, b);
      SortedOnlyOneWay(a[1..], b[1..]);
      assert a == [a[0]] + a[1..] && b == [b[0]] + b[1..];
    }
  }

  // ---------- the key of a stage ----------

  ghost predicate Plain(names: seq<string>) {
    forall i :: 0 <= i < |names| ==> names[i] != "" && '|' !in names[i]
  }

  lemma {:induction false} JoinSplits(names: seq<string>)
    requires Plain(names) && |names| > 0
    ensures Split(Join(names, "|"), '|') == names
  {
    if |names| == 1 {
      SplitAtom(names[0], '|');
    } else {
      var rest := Join(names[1..], "|");
      JoinSplits(names[1..]);
      SplitAtom(names[0], '|');
      SplitJoin(names[0], '|', rest);
      assert names[0] + "|" + rest == names[0] + ['|'] + rest;
      assert names == [names[0]] + names[1..];
    }
  }

  lemma JoinTells(a: seq<string>, b: seq<string>)
    requires Plain(a) && Plain(b) && Join(a, "|") == Join(b, "|")
    ensures a == b
  {
    if |a| > 0 && |b| > 0 {
      JoinSplits(a);
      JoinSplits(b);
    }
  }

  /** The order in which a task names its dependencies does not matter; and names without a bar tell stages apart. */
  lemma SameStageIff(a: seq<string>, b: seq<string>)
    ensures multiset(a) == multiset(b) ==> StageKey(a) == StageKey(b)
    ensures Plain(a) && Plain(b) && StageKey(a) == StageKey(b) ==> multiset(a) == multiset(b)
  {
    hide Join, Plain;
    var a', b' := Sorting.StableSort(a, StringLess), Sorting.StableSort(b, StringLess);
    LessIsStrictWeak();
    Sorting.SortOrders(a, StringLess);
    Sorting.SortOrders(b, StringLess);
    Sorting.SortPermutes(a, StringLess);
    Sorting.SortPermutes(b, StringLess);
    if multiset(a) == multiset(b) {
      SortedOnlyOneWay(a', b');
    }
    if Plain(a) && Plain(b) && StageKey(a) == StageKey(b) {
      PlainSorted(a);
      PlainSorted(b);
      JoinTells(a', b');
    }
  }

  lemma PlainSorted(a: seq<string>)
    requires Plain(a)
    ensures Plain(Sorting.StableSort(a, StringLess))
  {
    Sorting.SortMembers(a, StringLess);
    var s := Sorting.StableSort(a, StringLess);
    forall i | 0 <= i < |s| ensures s[i] != "" && '|' !in s[i] {
      assert s[i] in s;
    }
  }

  /** What the choice counts for a worker: the tasks of the job that depend on the same tasks and are placed there.  Spreading
      applies if the job asks for it and another task of the job depends on the same. */
  lemma StageCounts(s: State, ref: TaskRef, worker: string)
    requires ref in s.tasks && Trim(worker) != ""
    requires forall r :: r in s.tasks && r.jobId == ref.jobId ==> Plain(s.tasks[r].deps)
    ensures StageUse(s, ref, worker) == |set r | r in s.tasks && r.jobId == ref.jobId
              && multiset(s.tasks[r].deps) == multiset(s.tasks[ref].deps) && s.tasks[r].worker == worker|
    ensures SpreadStage(s, ref) <==> (
      && Lower(Trim(Get(s.tasks[ref].inputs, "_job_spread"))) in {"1", "true", "yes"}
      && exists r :: r in s.tasks && r != ref && r.jobId == ref.jobId && multiset(s.tasks[r].deps) == multiset(s.tasks[ref].deps))
  {
    hide StageKey, Trim, Lower, Plain;
    var key := StageKey(s.tasks[ref].deps);
    forall r | r in s.tasks && r.jobId == ref.jobId
      ensures StageKey(s.tasks[r].deps) == key <==> multiset(s.tasks[r].deps) == multiset(s.tasks[ref].deps)
    {
      SameStageIff(s.tasks[r].deps, s.tasks[ref].deps);
    }
    assert OnStage(s.tasks, ref.jobId, key, worker) == set r | r in s.tasks && r.jobId == ref.jobId
      && multiset(s.tasks[r].deps) == multiset(s.tasks[ref].deps) && s.tasks[r].worker == worker;
    MoreThanOne(Stage(s.tasks, ref.jobId, key), ref);
  }

  lemma MoreThanOne(s: set<TaskRef>, x: TaskRef)
    requires x in s
    ensures |s| > 1 <==> exists y :: y in s && y != x
  {
    if |s| > 1 {
      assert |s - {x}| == |s| - 1;
      var y :| y in s - {x};
    }
    if y :| y in s && y != x {
      assert {x, y} <= s;
      assert s == {x, y} + (s - {x, y});
    }
  }
}
