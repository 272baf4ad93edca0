/** Rewriting a task graph before it is submitted (injectModelBackend, injectModelInstallTasks, injectJobSpread in
    internal/api/server.go).  A Go DAG's task slice is a sequence that the methods update entry by entry. */
module GraphRewrite {
  import opened Text
  import opened Dag

  const INSTALL_ID := "t0-model-install"
  const FALLBACK_ID := "t0-model-install-1"

  predicate IsLlm(typ: string) { EqualFold(Trim(typ), "llm_inference") }

  predicate NeedsInstall(dag: seq<DagTask>) {
    exists i :: 0 <= i < |dag| && IsLlm(dag[i].typ)
  }

  /** Whether the rewrite applies at all. */
  predicate Installs(dag: seq<DagTask>, model: string, install: bool) {
    install && Trim(model) != "" && NeedsInstall(dag)
  }

  function InstallId(dag: seq<DagTask>): string {
    if HasId(dag, INSTALL_ID) then FALLBACK_ID else INSTALL_ID
  }

  function ModelSource(backend: string): string {
    if Lower(Trim(backend)) == "ollama" then "ollama" else "huggingface"
  }

  function InstallTask(dag: seq<DagTask>, model: string, backend: string): DagTask {
    DagTask(InstallId(dag), "model_download",
            map["model" := Trim(model), "source" := ModelSource(backend), "only_if_missing" := "true"],
            [], 1800, 1, None, None)
  }

  function Patched(t: DagTask, id: string, source: string): DagTask {
    if t.taskId == id || !IsLlm(t.typ) then t
    else t.(inputs := t.inputs["_install_model_if_missing" := "true"]["model_source" := source],
            deps := if id in t.deps then t.deps else t.deps + [id])
  }

  /** The rewritten graph, entry by entry. */
  function WithInstall(dag: seq<DagTask>, model: string, backend: string, install: bool): (r: seq<DagTask>)
    ensures !Installs(dag, model, install) ==> r == dag
    ensures Installs(dag, model, install) ==> |r| == |dag| + 1
  {
    if !Installs(dag, model, install) then dag
    else
      [InstallTask(dag, model, backend)]
      + seq(|dag|, i requires 0 <= i < |dag| => Patched(dag[i], InstallId(dag), ModelSource(backend)))
  }

  function WithBackend(dag: seq<DagTask>, backend: string): seq<DagTask> {
    seq(|dag|, i requires 0 <= i < |dag| =>
      if Trim(backend) != "" && IsLlm(dag[i].typ) && Trim(Get(dag[i].inputs, "backend")) == ""
      then dag[i].(inputs := dag[i].inputs["backend" := Trim(backend)]) else dag[i])
  }

  function WithSpread(dag: seq<DagTask>, enabled: bool): seq<DagTask> {
    seq(|dag|, i requires 0 <= i < |dag| =>
      if enabled then dag[i].(inputs := dag[i].inputs["_job_spread" := "true"]) else dag[i])
  }

  // ---------- the loops ----------

  method TaskIds(dag: seq<DagTask>) returns (ids: set<string>)
    ensures forall id :: id in ids <==> HasId(dag, id)
  {
    ids := {};
    for k := 0 to |dag|
      invariant forall id :: id in ids <==> HasId(dag[..k], id)
    {
      assert dag[..k + 1] == dag[..k] + [dag[k]];
      HasIdPush(dag[..k], dag[k]);
      ids := ids + {dag[k].taskId};
    }
    assert dag[..|dag|] == dag;
  }

  method InjectModelInstallTasks(dag: seq<DagTask>, model: string, backend: string, install: bool) returns (out: seq<DagTask>)
    ensures out == WithInstall(dag, model, backend, install)
  {
    hide Trim, ModelSource, IsLlm, HasId, WithInstall;
    if !install || Trim(model) == "" || |dag| == 0 { return dag; }
    var needsInstall := false;
    var i := 0;
    while i < |dag| && !needsInstall
      invariant 0 <= i <= |dag|
      invariant needsInstall ==> NeedsInstall(dag)
      invariant !needsInstall ==> forall k :: 0 <= k < i ==> !IsLlm(dag[k].typ)
      decreases |dag| - i, !needsInstall
    {
      if IsLlm(dag[i].typ) { needsInstall := true; }
      i := i + 1;
    }
    if !needsInstall { return dag; }
    var existing := TaskIds(dag);
    var id := if INSTALL_ID in existing then FALLBACK_ID else INSTALL_ID;
    var source := ModelSource(backend);
    out := [InstallTask(dag, model, backend)] + dag;
    for k := 0 to |out|
      invariant |out| == |dag| + 1
      invariant out[0] == InstallTask(dag, model, backend)
      invariant forall n :: 1 <= n < k ==> out[n] == Patched(dag[n - 1], id, source)
      invariant forall n :: 1 <= n && k <= n < |out| ==> out[n] == dag[n - 1]
    {
      if out[k].taskId != id && IsLlm(out[k].typ) {
        var t := out[k].(inputs := out[k].inputs["_install_model_if_missing" := "true"]["model_source" := source]);
        if id !in t.deps { t := t.(deps := t.deps + [id]); }
        out := out[k := t];
      }
    }
    AllPatched(dag, model, backend, out);
  }

  lemma AllPatched(dag: seq<DagTask>, model: string, backend: string, out: seq<DagTask>)
    requires Installs(dag, model, true) && |out| == |dag| + 1 && out[0] == InstallTask(dag, model, backend)
    requires forall n :: 1 <= n < |out| ==> out[n] == Patched(dag[n - 1], InstallId(dag), ModelSource(backend))
    ensures out == WithInstall(dag, model, backend, true)
  {
    hide Patched, InstallTask, InstallId, ModelSource, Installs;
  }

  lemma HasIdPush(dag: seq<DagTask>, t: DagTask)
    ensures forall id :: HasId(dag + [t], id) <==> HasId(dag, id) || id == t.taskId
  {
    forall id ensures HasId(dag + [t], id) <==> HasId(dag, id) || id == t.taskId {
      if HasId(dag, id) {
        var i :| 0 <= i < |dag| && dag[i].taskId == id;
        assert (dag + [t])[i].taskId == id;
      }
      assert (dag + [t])[|dag|] == t;
    }
  }

  method InjectModelBackend(dag: seq<DagTask>, backend: string) returns (out: seq<DagTask>)
    ensures out == WithBackend(dag, backend)
  {
    out := dag;
    if Trim(backend) == "" { return; }
    for k := 0 to |out|
      invariant |out| == |dag|
      invariant forall n :: 0 <= n < k ==> out[n] == WithBackend(dag, backend)[n]
      invariant forall n :: k <= n < |dag| ==> out[n] == dag[n]
    {
      if IsLlm(out[k].typ) && Trim(Get(out[k].inputs, "backend")) == "" {
        out := out[k := out[k].(inputs := out[k].inputs["backend" := Trim(backend)])];
      }
    }
  }

  method InjectJobSpread(dag: seq<DagTask>, enabled: bool) returns (out: seq<DagTask>)
    ensures out == WithSpread(dag, enabled)
  {
    out := dag;
    if !enabled { return; }
    for k := 0 to |out|
      invariant |out| == |dag|
      invariant forall n :: 0 <= n < k ==> out[n] == WithSpread(dag, enabled)[n]
      invariant forall n :: k <= n < |dag| ==> out[n] == dag[n]
    {
      out := out[k := out[k].(inputs := out[k].inputs["_job_spread" := "true"])];
    }
  }

  // ---------- what the rewrite writes ----------

  ghost predicate AsksModel(t: DagTask) { Lower(Trim(t.typ)) == Lower("llm_inference") }

  /** With a model to install and a task that asks for one, the graph starts with a task that downloads the model, and every
      task that asks for one waits for it and is told so; nothing else of any task changes. */
  lemma InstallWrites(dag: seq<DagTask>, model: string, backend: string, i: nat)
    requires Trim(model) != "" && i < |dag| && exists k :: 0 <= k < |dag| && AsksModel(dag[k])
    ensures var r := WithInstall(dag, model, backend, true);
      var source := if Lower(Trim(backend)) == "ollama" then "ollama" else "huggingface";
      && |r| == |dag| + 1
      && r[0].typ == "model_download" && r[0].deps == [] && r[0].timeoutSec == 1800 && r[0].maxRetries == 1
      && r[0].inputs == map["model" := Trim(model), "source" := source, "only_if_missing" := "true"]
      && r[0].taskId == (if HasId(dag, "t0-model-install") then "t0-model-install-1" else "t0-model-install")
      && var t, t' := dag[i], r[i + 1];
         if !AsksModel(t) || t.taskId == r[0].taskId then t' == t
         else
           && t' == t.(inputs := t'.inputs, deps := t'.deps)
           && t'.deps == (if r[0].taskId in t.deps then t.deps else t.deps + [r[0].taskId])
           && (forall k :: k in t'.inputs <==> k in t.inputs || k in {"_install_model_if_missing", "model_source"})
           && Get(t'.inputs, "_install_model_if_missing") == "true" && Get(t'.inputs, "model_source") == source
           && forall k :: k in t.inputs && k !in {"_install_model_if_missing", "model_source"} ==> t'.inputs[k] == t.inputs[k]
  {
    hide Trim, Lower, HasId, AsksModel;
    AskingIsLlm();
    assert |"_install_model_if_missing"| == 25 && |"model_source"| == 12;
  }

  lemma AskingIsLlm()
    ensures forall t: DagTask :: AsksModel(t) <==> IsLlm(t.typ)
  {
    hide Trim, Lower;
  }

  /** Without a model to install, or a task that asks for one, nothing changes. */
  lemma InstallWritesNothing(dag: seq<DagTask>, model: string, backend: string, install: bool)
    requires !install || Trim(model) == "" || forall k :: 0 <= k < |dag| ==> !AsksModel(dag[k])
    ensures WithInstall(dag, model, backend, install) == dag
  {
    hide Trim, Lower, AsksModel;
    AskingIsLlm();
  }

  /** A task that asks for a model and names no backend gets the one given; one that names its own keeps it, and so do tasks
      that ask for none.  The spread flag goes to every task.  Other inputs are kept. */
  lemma FlagsWritten(dag: seq<DagTask>, backend: string, enabled: bool, i: nat, k: string)
    requires i < |dag|
    ensures |WithBackend(dag, backend)| == |WithSpread(dag, enabled)| == |dag|
    ensures var t, b := dag[i], WithBackend(dag, backend)[i];
      && b == t.(inputs := b.inputs)
      && (k != "backend" ==> (k in b.inputs <==> k in t.inputs) && Get(b.inputs, k) == Get(t.inputs, k))
      && Get(b.inputs, "backend") == (if AsksModel(t) && Trim(backend) != "" && Trim(Get(t.inputs, "backend")) == ""
                                      then Trim(backend) else Get(t.inputs, "backend"))
    ensures var t, f := dag[i], WithSpread(dag, enabled)[i];
      && f == t.(inputs := f.inputs)
      && (k != "_job_spread" || !enabled ==> (k in f.inputs <==> k in t.inputs) && Get(f.inputs, k) == Get(t.inputs, k))
      && (enabled ==> Get(f.inputs, "_job_spread") == "true")
  {
    hide Trim, Lower, AsksModel;
    AskingIsLlm();
  }

  // ---------- what the rewrite keeps ----------

  /** Ids, types and dependencies agree entry by entry. */
  ghost predicate SameShape(a: seq<DagTask>, b: seq<DagTask>) {
    |a| == |b| && forall i :: 0 <= i < |a| ==>
      a[i].taskId == b[i].taskId && a[i].typ == b[i].typ && a[i].deps == b[i].deps
  }

  lemma BackendAndSpreadKeepShape(dag: seq<DagTask>, backend: string, enabled: bool)
    ensures SameShape(dag, WithBackend(dag, backend)) && SameShape(dag, WithSpread(dag, enabled))
  {
  }

  lemma ShapeKeepsGraph(a: seq<DagTask>, b: seq<DagTask>)
    requires SameShape(a, b)
    ensures UniqueIds(a) <==> UniqueIds(b)
    ensures forall id :: HasId(a, id) <==> HasId(b, id)
    ensures Closed(a) <==> Closed(b)
    ensures forall rank: string -> nat :: RankedBy(a, rank) <==> RankedBy(b, rank)
  {
    forall id ensures HasId(a, id) <==> HasId(b, id) { ShapeIds(a, b, id); ShapeIds(b, a, id); }
    if Closed(a) { ShapeClosed(a, b); }
    if Closed(b) { ShapeClosed(b, a); }
  }

  lemma ShapeIds(a: seq<DagTask>, b: seq<DagTask>, id: string)
    requires SameShape(a, b)
    ensures HasId(a, id) ==> HasId(b, id)
  {
    if HasId(a, id) {
      var i :| 0 <= i < |a| && a[i].taskId == id;
      assert b[i].taskId == id;
    }
  }

  lemma ShapeClosed(a: seq<DagTask>, b: seq<DagTask>)
    requires SameShape(a, b) && Closed(a)
    ensures Closed(b)
  {
    forall i, d | 0 <= i < |b| && d in b[i].deps ensures HasId(b, d) {
      assert d in a[i].deps;
      ShapeIds(a, b, d);
    }
  }

  lemma PatchedKeeps(t: DagTask, id: string, source: string)
    ensures var p := Patched(t, id, source);
      && p.taskId == t.taskId && p.typ == t.typ
      && (forall d :: d in p.deps ==> d in t.deps || d == id)
      && (forall d :: d in t.deps ==> d in p.deps)
      && (IsLlm(t.typ) && t.taskId != id ==> id in p.deps)
  {
  }

  /** Entry i + 1 of the rewritten graph is entry i of the original one, patched. */
  lemma InstallEntry(dag: seq<DagTask>, model: string, backend: string, i: nat)
    requires Installs(dag, model, true) && i < |dag|
    ensures var out := WithInstall(dag, model, backend, true);
      i + 1 < |out| && out[i + 1] == Patched(dag[i], InstallId(dag), ModelSource(backend))
      && out[0] == InstallTask(dag, model, backend)
  {
  }

  lemma InstalledIds(dag: seq<DagTask>, model: string, backend: string, id: string)
    requires Installs(dag, model, true)
    ensures HasId(WithInstall(dag, model, backend, true), id) <==> id == InstallId(dag) || HasId(dag, id)
  {
    var out := WithInstall(dag, model, backend, true);
    if HasId(dag, id) {
      var i :| 0 <= i < |dag| && dag[i].taskId == id;
      InstallEntry(dag, model, backend, i);
      PatchedKeeps(dag[i], InstallId(dag), ModelSource(backend));
      assert out[i + 1].taskId == id;
    }
    if HasId(out, id) && id != InstallId(dag) {
      var k :| 0 <= k < |out| && out[k].taskId == id;
      InstallEntry(dag, model, backend, k - 1);
      PatchedKeeps(dag[k - 1], InstallId(dag), ModelSource(backend));
      assert dag[k - 1].taskId == id;
    }
    assert out[0].taskId == InstallId(dag);
  }

  /** Ids stay unique exactly unless both the install id and its fallback are already taken. */
  lemma InstallUniqueIff(dag: seq<DagTask>, model: string, backend: string)
    requires Installs(dag, model, true) && UniqueIds(dag)
    ensures UniqueIds(WithInstall(dag, model, backend, true)) <==> !(HasId(dag, INSTALL_ID) && HasId(dag, FALLBACK_ID))
  {
    var out, id := WithInstall(dag, model, backend, true), InstallId(dag);
    forall k | 0 <= k < |dag| ensures out[k + 1].taskId == dag[k].taskId {
      InstallEntry(dag, model, backend, k);
      PatchedKeeps(dag[k], id, ModelSource(backend));
    }
    if HasId(dag, id) {
      var k :| 0 <= k < |dag| && dag[k].taskId == id;
      assert out[0].taskId == out[k + 1].taskId;
    } else {
      forall i, j | 0 <= i < j < |out| ensures out[i].taskId != out[j].taskId {
        assert out[j].taskId == dag[j - 1].taskId;
        if i > 0 { assert out[i].taskId == dag[i - 1].taskId; }
      }
    }
    assert id == FALLBACK_ID || !HasId(dag, id);
  }

  lemma InstallKeepsClosed(dag: seq<DagTask>, model: string, backend: string)
    requires Installs(dag, model, true) && Closed(dag)
    ensures Closed(WithInstall(dag, model, backend, true))
  {
    hide Trim, IsLlm, HasId, InstallId, ModelSource;
    var out := WithInstall(dag, model, backend, true);
    forall i, d | 0 <= i < |out| && d in out[i].deps ensures HasId(out, d) {
      if i > 0 {
        InstallEntry(dag, model, backend, i - 1);
        PatchedKeeps(dag[i - 1], InstallId(dag), ModelSource(backend));
        if d != InstallId(dag) { assert d in dag[i - 1].deps; }
      }
      InstalledIds(dag, model, backend, d);
    }
  }

  // ---------- when the rewritten graph is acyclic ----------

  ghost predicate Edge(dag: seq<DagTask>, from: string, to: string) {
    exists i :: 0 <= i < |dag| && dag[i].taskId == from && to in dag[i].deps
  }

  /** n dependencies lead from one id to the other. */
  ghost predicate Reaches(dag: seq<DagTask>, from: string, to: string, n: nat)
    decreases n
  {
    if n == 0 then from == to else exists mid :: Edge(dag, from, mid) && Reaches(dag, mid, to, n - 1)
  }

  ghost predicate Reachable(dag: seq<DagTask>, from: string, to: string) { exists n: nat :: Reaches(dag, from, to, n) }

  /** The task carrying id needs, through its dependencies, an llm_inference task of another id. */
  ghost predicate NeedsInference(dag: seq<DagTask>, id: string) {
    exists i :: 0 <= i < |dag| && IsLlm(dag[i].typ) && dag[i].taskId != id && Reachable(dag, id, dag[i].taskId)
  }

  lemma ReachesSelf(dag: seq<DagTask>, id: string)
    ensures Reachable(dag, id, id)
  {
    assert Reaches(dag, id, id, 0);
  }

  lemma {:induction false} ReachesOn(dag: seq<DagTask>, from: string, mid: string, to: string, n: nat)
    requires Reaches(dag, from, mid, n) && Edge(dag, mid, to)
    ensures Reaches(dag, from, to, n + 1)
    decreases n
  {
    if n == 0 {
      assert Edge(dag, from, to) && Reaches(dag, to, to, 0);
    } else {
      var next :| Edge(dag, from, next) && Reaches(dag, next, mid, n - 1);
      ReachesOn(dag, next, mid, to, n - 1);
    }
  }

  lemma {:induction false} ReachedRanksBelow(dag: seq<DagTask>, rank: string -> nat, from: string, to: string, n: nat)
    requires RankedBy(dag, rank) && Reaches(dag, from, to, n)
    ensures rank(to) + n <= rank(from)
    decreases n
  {
    if n > 0 {
      var next :| Edge(dag, from, next) && Reaches(dag, next, to, n - 1);
      ReachedRanksBelow(dag, rank, next, to, n - 1);
    }
  }

  /** The rewritten graph has the old dependencies and one from every other llm_inference task to the install task. */
  lemma InstalledDeps(dag: seq<DagTask>, model: string, backend: string, k: nat, d: string)
    requires Installs(dag, model, true) && k < |dag|
    ensures var out, id := WithInstall(dag, model, backend, true), InstallId(dag);
      && out[k + 1].taskId == dag[k].taskId
      && (d in out[k + 1].deps <==> d in dag[k].deps || (d == id && IsLlm(dag[k].typ) && dag[k].taskId != id))
  {
    hide IsLlm, ModelSource;
    InstallEntry(dag, model, backend, k);
  }

  lemma InstallHead(dag: seq<DagTask>, model: string, backend: string)
    requires Installs(dag, model, true)
    ensures var out := WithInstall(dag, model, backend, true);
      |out| == |dag| + 1 && out[0].deps == [] && out[0].taskId == InstallId(dag)
  {
  }

  lemma InstallAcyclicOnly(dag: seq<DagTask>, model: string, backend: string, rank: string -> nat)
    requires Installs(dag, model, true) && RankedBy(WithInstall(dag, model, backend, true), rank)
    ensures RankedBy(dag, rank) && !NeedsInference(dag, InstallId(dag))
  {
    hide IsLlm, Installs, InstallId, InstallTask, WithInstall, Reaches;
    var out, id := WithInstall(dag, model, backend, true), InstallId(dag);
    InstallHead(dag, model, backend);
    forall k, d | 0 <= k < |dag| && d in dag[k].deps ensures rank(d) < rank(dag[k].taskId) {
      InstalledDeps(dag, model, backend, k, d);
    }
    forall k | 0 <= k < |dag| && IsLlm(dag[k].typ) && dag[k].taskId != id ensures !Reachable(dag, id, dag[k].taskId) {
      InstalledDeps(dag, model, backend, k, id);
      forall n: nat ensures !Reaches(dag, id, dag[k].taskId, n) {
        if Reaches(dag, id, dag[k].taskId, n) {
          ReachedRanksBelow(dag, rank, id, dag[k].taskId, n);
        }
      }
    }
  }

  /** What the install task needs keeps its rank; every other rank moves above the install task's. */
  ghost function Lifted(dag: seq<DagTask>, rank: string -> nat, id: string): string -> nat {
    x => if Reachable(dag, id, x) then rank(x) else rank(x) + rank(id) + 1
  }

  lemma InstallAcyclicIf(dag: seq<DagTask>, model: string, backend: string, rank: string -> nat)
    requires Installs(dag, model, true) && RankedBy(dag, rank) && !NeedsInference(dag, InstallId(dag))
    ensures RankedBy(WithInstall(dag, model, backend, true), Lifted(dag, rank, InstallId(dag)))
  {
    hide IsLlm, Installs, InstallId, InstallTask, WithInstall, Reaches;
    var out, id := WithInstall(dag, model, backend, true), InstallId(dag);
    var lifted := Lifted(dag, rank, id);
    InstallHead(dag, model, backend);
    ReachesSelf(dag, id);
    forall i, d | 0 <= i < |out| && d in out[i].deps ensures lifted(d) < lifted(out[i].taskId) {
      InstalledDeps(dag, model, backend, i - 1, d);
      var x := dag[i - 1].taskId;
      if d in dag[i - 1].deps {
        assert Edge(dag, x, d);
        if Reachable(dag, id, x) {
          var n: nat :| Reaches(dag, id, x, n);
          ReachesOn(dag, id, x, d, n);
        }
      } else {
        assert !Reachable(dag, id, x);
      }
    }
  }

  /** The rewritten graph is acyclic exactly if the submitted one is and the task already carrying the install task's id, if
      there is one, does not need an llm_inference task of another id. */
  lemma InstallAcyclicIff(dag: seq<DagTask>, model: string, backend: string)
    requires Installs(dag, model, true)
    ensures Acyclic(WithInstall(dag, model, backend, true)) <==> Acyclic(dag) && !NeedsInference(dag, InstallId(dag))
  {
    hide Installs, InstallId, WithInstall, NeedsInference, RankedBy;
    var out := WithInstall(dag, model, backend, true);
    if Acyclic(out) {
      var rank: string -> nat :| RankedBy(out, rank);
      InstallAcyclicOnly(dag, model, backend, rank);
    }
    if Acyclic(dag) && !NeedsInference(dag, InstallId(dag)) {
      var rank: string -> nat :| RankedBy(dag, rank);
      InstallAcyclicIf(dag, model, backend, rank);
    }
  }

  /** An id nobody carries needs nothing. */
  lemma UnusedNeedsNothing(dag: seq<DagTask>, id: string)
    requires !HasId(dag, id)
    ensures !NeedsInference(dag, id)
  {
    forall i | 0 <= i < |dag| && dag[i].taskId != id ensures !Reachable(dag, id, dag[i].taskId) {
      forall n: nat ensures !Reaches(dag, id, dag[i].taskId, n) {
        assert forall mid :: !Edge(dag, id, mid);
      }
    }
  }

  /** The model-install rewrite keeps ids unique, dependencies closed and the graph acyclic, provided the id it falls back
      to is unused, and makes every llm_inference task depend on the install task. */
  lemma InstallKeepsGraph(dag: seq<DagTask>, model: string, backend: string)
    requires Installs(dag, model, true) && !HasId(dag, InstallId(dag))
    requires UniqueIds(dag) && Closed(dag) && Acyclic(dag)
    ensures var out := WithInstall(dag, model, backend, true);
      && UniqueIds(out) && Closed(out) && Acyclic(out)
      && (forall i :: 0 <= i < |out| && IsLlm(out[i].typ) ==> InstallId(dag) in out[i].deps)
  {
    var out := WithInstall(dag, model, backend, true);
    InstallUniqueIff(dag, model, backend);
    InstallKeepsClosed(dag, model, backend);
    UnusedNeedsNothing(dag, InstallId(dag));
    InstallAcyclicIff(dag, model, backend);
    LlmGuarded(dag, model, backend);
  }

  lemma LlmGuarded(dag: seq<DagTask>, model: string, backend: string)
    requires Installs(dag, model, true) && !HasId(dag, InstallId(dag))
    ensures var out := WithInstall(dag, model, backend, true);
      forall i :: 0 <= i < |out| && IsLlm(out[i].typ) ==> InstallId(dag) in out[i].deps
  {
    var out := WithInstall(dag, model, backend, true);
    assert !IsLlm("model_download") by { assert |Lower(Trim("model_download"))| != |Lower("llm_inference")|; }
    forall i | 0 <= i < |out| && IsLlm(out[i].typ) ensures InstallId(dag) in out[i].deps {
      if i > 0 {
        InstallEntry(dag, model, backend, i - 1);
        PatchedKeeps(dag[i - 1], InstallId(dag), ModelSource(backend));
        assert dag[i - 1].taskId != InstallId(dag);
      }
    }
  }

  const TAKEN: seq<DagTask> := [
    DagTask(INSTALL_ID, "noop", map[], [], 0, 0, None, None),
    DagTask("gen", "llm_inference", map[], [], 0, 0, None, None),
    DagTask(FALLBACK_ID, "noop", map[], ["gen"], 0, 0, None, None)]

  lemma TakenGraphOk()
    ensures UniqueIds(TAKEN) && Closed(TAKEN) && Acyclic(TAKEN) && Installs(TAKEN, "m", true)
    ensures HasId(TAKEN, INSTALL_ID) && HasId(TAKEN, FALLBACK_ID)
  {
    assert IsLlm(TAKEN[1].typ) && Trim("m") == "m";
    assert TAKEN[0].taskId == INSTALL_ID && TAKEN[1].taskId == "gen" && TAKEN[2].taskId == FALLBACK_ID;
    assert RankedBy(TAKEN, (x: string) => if x == FALLBACK_ID then 1 else 0);
  }

  lemma TakenNeedsInference()
    ensures NeedsInference(TAKEN, FALLBACK_ID)
  {
    assert TAKEN[2].taskId == FALLBACK_ID && "gen" in TAKEN[2].deps && TAKEN[1].taskId == "gen";
    assert Edge(TAKEN, FALLBACK_ID, "gen") && Reaches(TAKEN, "gen", "gen", 0);
    assert Reaches(TAKEN, FALLBACK_ID, "gen", 1);
    assert IsLlm(TAKEN[1].typ);
  }

  /** Why the proviso is needed: with both ids taken, a sound graph is rewritten to one that repeats an id and is cyclic. */
  lemma TakenFallbackBreaksGraph()
    ensures UniqueIds(TAKEN) && Closed(TAKEN) && Acyclic(TAKEN) && Installs(TAKEN, "m", true)
    ensures !UniqueIds(WithInstall(TAKEN, "m", "", true)) && !Acyclic(WithInstall(TAKEN, "m", "", true))
  {
    hide UniqueIds, Closed, Acyclic, Installs, WithInstall, NeedsInference, HasId;
    TakenGraphOk();
    InstallUniqueIff(TAKEN, "m", "");
    InstallAcyclicIff(TAKEN, "m", "");
    TakenNeedsInference();
  }

  const LOOSE: seq<DagTask> := [
    DagTask(INSTALL_ID, "noop", map[], [], 0, 0, None, None),
    DagTask(FALLBACK_ID, "noop", map[], [], 0, 0, None, None),
    DagTask("gen", "llm_inference", map[], [], 0, 0, None, None)]

  lemma LooseGraphOk()
    ensures UniqueIds(LOOSE) && Installs(LOOSE, "m", true) && HasId(LOOSE, INSTALL_ID) && HasId(LOOSE, FALLBACK_ID)
    ensures Acyclic(LOOSE) && !NeedsInference(LOOSE, FALLBACK_ID)
  {
    assert IsLlm(LOOSE[2].typ) && Trim("m") == "m";
    assert LOOSE[0].taskId == INSTALL_ID && LOOSE[1].taskId == FALLBACK_ID && LOOSE[2].taskId == "gen";
    assert RankedBy(LOOSE, (x: string) => 0);
    forall i, n: nat | 0 <= i < |LOOSE| && LOOSE[i].taskId != FALLBACK_ID
      ensures !Reaches(LOOSE, FALLBACK_ID, LOOSE[i].taskId, n)
    {
      assert forall mid :: !Edge(LOOSE, FALLBACK_ID, mid);
    }
  }

  /** A repeated id need not mean a cycle: without dependencies both ids can be taken and the graph stays acyclic. */
  lemma TakenFallbackMayStayAcyclic()
    ensures UniqueIds(LOOSE) && Installs(LOOSE, "m", true)
    ensures !UniqueIds(WithInstall(LOOSE, "m", "", true)) && Acyclic(WithInstall(LOOSE, "m", "", true))
  {
    hide UniqueIds, Acyclic, Installs, WithInstall, NeedsInference, HasId;
    LooseGraphOk();
    InstallUniqueIff(LOOSE, "m", "");
    InstallAcyclicIff(LOOSE, "m", "");
  }
}
