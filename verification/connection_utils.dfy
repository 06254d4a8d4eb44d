/** Connection inference (src/components/workflow/connection-utils.ts): the
    two-pass edge generation and its merge with edges that already exist. */
module ConnectionUtils {
  import opened Wrappers
  import opened WorkflowTypes

  /** An edge handed to the renderer; `stroke` is its line colour. */
  datatype FlowEdge = FlowEdge(id: string, source: string, target: string, stroke: string)

  const StageToStatusStroke := "#000"
  const StatusToStageStroke := "#666"

  /** The deterministic id of the edge from `source` to `target`. */
  function EdgeId(source: string, target: string): string {
    source + "-to-" + target
  }

  function Connect(source: string, target: string, stroke: string): (e: FlowEdge)
    ensures e.id == EdgeId(e.source, e.target)
    ensures e.source == source && e.target == target && e.stroke == stroke
  {
    FlowEdge(EdgeId(source, target), source, target, stroke)
  }

  /** The index of the first status that names `stageId` as its stage
      (`statusNodes.find(...)`). */
  function FirstExplicitStatus(statusNodes: seq<WorkflowStatusNode>, stageId: string): (r: Option<nat>)
    ensures r.Some? ==> r.value < |statusNodes| && statusNodes[r.value].connectedToStage == Some(stageId)
  {
    if statusNodes == [] then None
    else if statusNodes[0].connectedToStage == Some(stageId) then Some(0)
    else match FirstExplicitStatus(statusNodes[1..], stageId)
      case None => None
      case Some(k) => Some(k + 1)
  }

  /** The match found is the first one, and there is none exactly when no
      status names the stage. */
  lemma {:induction false} FirstExplicitStatusIsFirst(statusNodes: seq<WorkflowStatusNode>, stageId: string)
    ensures var r := FirstExplicitStatus(statusNodes, stageId);
      && (r.Some? ==> forall k :: 0 <= k < r.value ==> statusNodes[k].connectedToStage != Some(stageId))
      && (r.None? <==> forall k :: 0 <= k < |statusNodes| ==> statusNodes[k].connectedToStage != Some(stageId))
  {
    if statusNodes != [] && statusNodes[0].connectedToStage != Some(stageId) {
      var tail := statusNodes[1..];
      FirstExplicitStatusIsFirst(tail, stageId);
      forall k | 1 <= k < |statusNodes| ensures statusNodes[k] == tail[k - 1] {
      }
    }
  }

  /** The status stage `index` is wired to: the first one naming it, else
      the status at the same index, else none. */
  function CorrespondingStatus(data: WorkflowData, index: nat): (r: Option<WorkflowStatusNode>)
    requires index < |data.stages|
    ensures r.Some? ==> r.value in data.statusNodes
    ensures index < |data.statusNodes| ==> r.Some?
    ensures r.Some? && r.value.connectedToStage != Some(data.stages[index].id) ==>
      index < |data.statusNodes| && r.value == data.statusNodes[index]
  {
    match FirstExplicitStatus(data.statusNodes, data.stages[index].id)
    case Some(k) => Some(data.statusNodes[k])
    case None => if index < |data.statusNodes| then Some(data.statusNodes[index]) else None
  }

  /** The pass-one edge of stage `index`, if any. */
  function StageEdge(data: WorkflowData, index: nat): (e: Option<FlowEdge>)
    requires index < |data.stages|
    ensures e.Some? <==> CorrespondingStatus(data, index).Some?
    ensures e.Some? ==> e.value.source == data.stages[index].id && e.value.target == CorrespondingStatus(data, index).value.id
    ensures e.Some? ==> e.value.stroke == StageToStatusStroke && e.value.id == EdgeId(e.value.source, e.value.target)
  {
    match CorrespondingStatus(data, index)
    case Some(status) => Some(Connect(data.stages[index].id, status.id, StageToStatusStroke))
    case None => None
  }

  /** The pass-two edge of status `index`: to the next stage, if there is one. */
  function StatusEdge(data: WorkflowData, index: nat): (e: Option<FlowEdge>)
    requires index < |data.statusNodes|
    ensures e.Some? <==> index + 1 < |data.stages|
    ensures e.Some? ==> e.value.source == data.statusNodes[index].id && e.value.target == data.stages[index + 1].id
    ensures e.Some? ==> e.value.stroke == StatusToStageStroke && e.value.id == EdgeId(e.value.source, e.value.target)
  {
    if index + 1 < |data.stages| then
      Some(Connect(data.statusNodes[index].id, data.stages[index + 1].id, StatusToStageStroke))
    else None
  }

  function OptionToSeq<T>(o: Option<T>): (s: seq<T>)
    ensures |s| <= 1
    ensures o.Some? ==> s == [o.value]
    ensures o.None? ==> s == []
  {
    match o
    case Some(v) => [v]
    case None => []
  }

  /** The values present in `opts`, in order: what a loop builds that pushes
      only when it found something. */
  function Present<T>(opts: seq<Option<T>>): (s: seq<T>)
    ensures |s| <= |opts|
  {
    if opts == [] then [] else Present(opts[..|opts| - 1]) + OptionToSeq(opts[|opts| - 1])
  }

  /** Pass one's candidate edges, stage by stage. */
  function StageEdgeOptions(data: WorkflowData): (opts: seq<Option<FlowEdge>>)
    ensures |opts| == |data.stages|
    ensures forall i :: 0 <= i < |opts| ==> opts[i] == StageEdge(data, i)
  {
    seq(|data.stages|, i requires 0 <= i < |data.stages| => StageEdge(data, i))
  }

  /** Pass two's candidate edges, status by status. */
  function StatusEdgeOptions(data: WorkflowData): (opts: seq<Option<FlowEdge>>)
    ensures |opts| == |data.statusNodes|
    ensures forall j :: 0 <= j < |opts| ==> opts[j] == StatusEdge(data, j)
  {
    seq(|data.statusNodes|, j requires 0 <= j < |data.statusNodes| => StatusEdge(data, j))
  }

  /** The edges of pass one (stage -> status). */
  function StageEdges(data: WorkflowData): seq<FlowEdge> {
    Present(StageEdgeOptions(data))
  }

  /** The edges of pass two (status -> next stage). */
  function StatusEdges(data: WorkflowData): seq<FlowEdge> {
    Present(StatusEdgeOptions(data))
  }

  /** The generated edge list as a value: pass one, then pass two. */
  function IntelligentConnections(data: WorkflowData): seq<FlowEdge> {
    StageEdges(data) + StatusEdges(data)
  }

  /** Generates the edges by pushing onto one local list: pass one, then pass two. */
  method GenerateIntelligentConnections(data: WorkflowData) returns (edges: seq<FlowEdge>)
    ensures edges == IntelligentConnections(data)
  {
    edges := PushStageEdges(data);
    edges := PushStatusEdges(data, edges);
  }

  /** Pass one: for each stage, push the edge to its corresponding status. */
  method PushStageEdges(data: WorkflowData) returns (edges: seq<FlowEdge>)
    ensures edges == StageEdges(data)
  {
    ghost var opts := StageEdgeOptions(data);
    edges := [];
    var i := 0;
    while i < |data.stages|
      invariant 0 <= i <= |data.stages|
      invariant edges == Present(opts[..i])
    {
      edges := PushStageEdge(data, i, edges);
      PresentNext(opts, i);
      i := i + 1;
    }
    PresentWhole(opts);
  }

  /** One iteration of pass one: push the edge from stage `i` to its
      corresponding status, when it has one. */
  method PushStageEdge(data: WorkflowData, i: nat, init: seq<FlowEdge>) returns (edges: seq<FlowEdge>)
    requires i < |data.stages|
    ensures edges == init + OptionToSeq(StageEdge(data, i))
  {
    var stage := data.stages[i];
    var explicit := FirstExplicitStatus(data.statusNodes, stage.id);
    var corresponding: Option<WorkflowStatusNode> :=
      if explicit.Some? then Some(data.statusNodes[explicit.value])
      else if i < |data.statusNodes| then Some(data.statusNodes[i])
      else None;
    edges := init;
    if corresponding.Some? {
      edges := edges + [Connect(stage.id, corresponding.value.id, StageToStatusStroke)];
    }
  }

  /** Pass two: for each status with a next stage, push the edge to it. */
  method PushStatusEdges(data: WorkflowData, init: seq<FlowEdge>) returns (edges: seq<FlowEdge>)
    ensures edges == init + StatusEdges(data)
  {
    ghost var opts := StatusEdgeOptions(data);
    edges := init;
    var j := 0;
    while j < |data.statusNodes|
      invariant 0 <= j <= |data.statusNodes|
      invariant edges == init + Present(opts[..j])
    {
      edges := PushStatusEdge(data, j, edges);
      PresentNext(opts, j);
      AppendAssoc(init, Present(opts[..j]), OptionToSeq(opts[j]));
      j := j + 1;
    }
    PresentWhole(opts);
  }

  /** One iteration of pass two: push the edge from status `j` to the next
      stage, when there is one. */
  method PushStatusEdge(data: WorkflowData, j: nat, init: seq<FlowEdge>) returns (edges: seq<FlowEdge>)
    requires j < |data.statusNodes|
    ensures edges == init + OptionToSeq(StatusEdge(data, j))
  {
    edges := init;
    if j + 1 < |data.stages| {
      edges := edges + [Connect(data.statusNodes[j].id, data.stages[j + 1].id, StatusToStageStroke)];
    }
  }

  // ----- Present values -----

  lemma PresentSnoc<T>(opts: seq<Option<T>>, o: Option<T>)
    ensures Present(opts + [o]) == Present(opts) + OptionToSeq(o)
  {
    assert (opts + [o])[..|opts|] == opts;
  }

  /** One more slot of a prefix appends that slot's value, if any. */
  lemma PresentNext<T>(opts: seq<Option<T>>, i: nat)
    requires i < |opts|
    ensures Present(opts[..i + 1]) == Present(opts[..i]) + OptionToSeq(opts[i])
  {
    assert opts[..i + 1] == opts[..i] + [opts[i]];
    PresentSnoc(opts[..i], opts[i]);
  }

  lemma PresentWhole<T>(opts: seq<Option<T>>)
    ensures Present(opts[..|opts|]) == Present(opts)
  {
    assert opts[..|opts|] == opts;
  }

  lemma AppendAssoc<T>(a: seq<T>, b: seq<T>, c: seq<T>)
    ensures a + b + c == a + (b + c)
  {
  }

  /** Every present value comes from some slot. */
  lemma {:induction false} PresentFrom<T>(opts: seq<Option<T>>)
    ensures forall x :: x in Present(opts) ==> exists i :: 0 <= i < |opts| && opts[i] == Some(x)
  {
    if opts != [] {
      var init := opts[..|opts| - 1];
      PresentFrom(init);
      forall x | x in Present(opts) ensures exists i :: 0 <= i < |opts| && opts[i] == Some(x) {
        if x in Present(init) {
          var i :| 0 <= i < |init| && init[i] == Some(x);
          assert opts[i] == Some(x);
        } else {
          assert opts[|opts| - 1] == Some(x);
        }
      }
    }
  }

  /** Every filled slot contributes its value. */
  lemma {:induction false} PresentCovers<T>(opts: seq<Option<T>>, i: nat)
    requires i < |opts| && opts[i].Some?
    ensures opts[i].value in Present(opts)
  {
    var init := opts[..|opts| - 1];
    if i < |opts| - 1 {
      assert init[i] == opts[i];
      PresentCovers(init, i);
    }
  }

  /** When exactly the first `m` slots are filled, the present values are
      those `m` values, in slot order. */
  lemma {:induction false} PresentPrefix<T>(opts: seq<Option<T>>, m: nat)
    requires m <= |opts|
    requires forall i :: 0 <= i < m ==> opts[i].Some?
    requires forall i :: m <= i < |opts| ==> opts[i].None?
    ensures |Present(opts)| == m
    ensures forall i :: 0 <= i < m ==> Present(opts)[i] == opts[i].value
  {
    if opts != [] {
      var init := opts[..|opts| - 1];
      if m == |opts| {
        PresentPrefix(init, m - 1);
      } else {
        PresentPrefix(init, m);
      }
    }
  }

  // ----- Pass one: stage -> status -----

  /** An explicit `connectedToStage` beats positional pairing: the edge goes
      to the first status naming the stage, wherever it sits. */
  lemma ExplicitBeatsPositional(data: WorkflowData, i: nat, j: nat)
    requires i < |data.stages| && j < |data.statusNodes|
    requires data.statusNodes[j].connectedToStage == Some(data.stages[i].id)
    requires forall k :: 0 <= k < j ==> data.statusNodes[k].connectedToStage != Some(data.stages[i].id)
    ensures StageEdge(data, i) == Some(Connect(data.stages[i].id, data.statusNodes[j].id, StageToStatusStroke))
  {
    var r := FirstExplicitStatus(data.statusNodes, data.stages[i].id);
    FirstExplicitStatusIsFirst(data.statusNodes, data.stages[i].id);
    assert r.Some?;
    assert !(r.value < j) && !(j < r.value);
  }

  /** Without an explicit match, stage i pairs with status i when there is
      one, and otherwise yields no edge (and no error). */
  lemma PositionalFallback(data: WorkflowData, i: nat)
    requires i < |data.stages|
    requires forall k :: 0 <= k < |data.statusNodes| ==> data.statusNodes[k].connectedToStage != Some(data.stages[i].id)
    ensures i < |data.statusNodes| ==>
      StageEdge(data, i) == Some(Connect(data.stages[i].id, data.statusNodes[i].id, StageToStatusStroke))
    ensures i >= |data.statusNodes| ==> StageEdge(data, i) == None
  {
    FirstExplicitStatusIsFirst(data.statusNodes, data.stages[i].id);
  }

  /** A status whose `connectedToStage` names no stage is never the explicit
      match of any stage. */
  lemma DanglingReferenceNeverMatches(data: WorkflowData, j: nat)
    requires j < |data.statusNodes|
    requires forall s :: s in data.stages ==> data.statusNodes[j].connectedToStage != Some(s.id)
    ensures forall i :: 0 <= i < |data.stages| ==> FirstExplicitStatus(data.statusNodes, data.stages[i].id) != Some(j)
  {
    forall i | 0 <= i < |data.stages| ensures FirstExplicitStatus(data.statusNodes, data.stages[i].id) != Some(j) {
      assert data.stages[i] in data.stages;
    }
  }

  /** Pass one emits at most one edge per stage, and every pass-one edge is
      the edge of some stage. */
  lemma StageEdgesComeFromStages(data: WorkflowData)
    ensures |StageEdges(data)| <= |data.stages|
    ensures forall e :: e in StageEdges(data) ==> exists i :: 0 <= i < |data.stages| && StageEdge(data, i) == Some(e)
  {
    PresentFrom(StageEdgeOptions(data));
  }

  /** Every pass-one edge is drawn in the dark stroke and has id
      `source-to-target`. */
  lemma StageEdgesAreDark(data: WorkflowData)
    ensures forall e :: e in StageEdges(data) ==> e.stroke == StageToStatusStroke && e.id == EdgeId(e.source, e.target)
  {
    PresentFrom(StageEdgeOptions(data));
    forall e | e in StageEdges(data) ensures e.stroke == StageToStatusStroke && e.id == EdgeId(e.source, e.target) {
      var i :| 0 <= i < |data.stages| && StageEdgeOptions(data)[i] == Some(e);
      assert StageEdge(data, i) == Some(e);
    }
  }

  /** Every stage that has a corresponding status contributes its edge. */
  lemma StageEdgesCoverStages(data: WorkflowData, i: nat)
    requires i < |data.stages|
    requires StageEdge(data, i).Some?
    ensures StageEdge(data, i).value in StageEdges(data)
  {
    PresentCovers(StageEdgeOptions(data), i);
  }

  /** When every stage has a status at its own index, pass one yields
      exactly one edge per stage, in stage order. */
  lemma StageEdgesWhenEnoughStatuses(data: WorkflowData)
    requires |data.stages| <= |data.statusNodes|
    ensures |StageEdges(data)| == |data.stages|
    ensures forall i :: 0 <= i < |data.stages| ==>
      Some(StageEdges(data)[i]) == StageEdge(data, i) && StageEdges(data)[i].source == data.stages[i].id
  {
    var opts := StageEdgeOptions(data);
    forall i | 0 <= i < |opts| ensures opts[i].Some? && opts[i].value.source == data.stages[i].id {
      StageWithStatusHasEdge(data, i);
    }
    PresentPrefix(opts, |opts|);
  }

  /** A stage with a status at its own index always gets an edge, leaving
      that stage. */
  lemma StageWithStatusHasEdge(data: WorkflowData, i: nat)
    requires i < |data.stages| && i < |data.statusNodes|
    ensures StageEdge(data, i).Some? && StageEdge(data, i).value.source == data.stages[i].id
  {
    assert CorrespondingStatus(data, i).Some?;
  }

  // ----- Pass two: status -> next stage -----

  function Min(a: int, b: int): int {
    if a < b then a else b
  }

  /** Pass two connects status j to stage j+1 exactly for the j with a next
      stage, so it yields min(|statusNodes|, |stages| - 1) edges. */
  lemma StatusEdgesExact(data: WorkflowData)
    ensures |StatusEdges(data)| == (if |data.stages| == 0 then 0 else Min(|data.statusNodes|, |data.stages| - 1))
    ensures forall j :: 0 <= j < |StatusEdges(data)| ==>
      StatusEdges(data)[j] == Connect(data.statusNodes[j].id, data.stages[j + 1].id, StatusToStageStroke)
  {
    var m := if |data.stages| == 0 then 0 else Min(|data.statusNodes|, |data.stages| - 1);
    PresentPrefix(StatusEdgeOptions(data), m);
  }

  // ----- The whole generation -----

  /** Every generated edge has id `source-to-target`; the pass-one edges,
      drawn in the dark stroke, all come before the pass-two edges. */
  lemma GeneratedEdgesShape(data: WorkflowData)
    ensures |StageEdges(data)| <= |IntelligentConnections(data)|
    ensures forall e :: e in IntelligentConnections(data) ==> e.id == EdgeId(e.source, e.target)
    ensures forall p :: 0 <= p < |StageEdges(data)| ==> IntelligentConnections(data)[p].stroke == StageToStatusStroke
    ensures forall p :: |StageEdges(data)| <= p < |IntelligentConnections(data)| ==>
      IntelligentConnections(data)[p].stroke == StatusToStageStroke
  {
    var one := StageEdges(data);
    var two := StatusEdges(data);
    var edges := one + two;
    StageEdgesAreDark(data);
    StatusEdgesExact(data);
    forall p | 0 <= p < |one| ensures edges[p].stroke == StageToStatusStroke {
      assert edges[p] == one[p];
    }
    forall p | |one| <= p < |edges| ensures edges[p].stroke == StatusToStageStroke {
      assert edges[p] == two[p - |one|];
    }
    forall e | e in edges ensures e.id == EdgeId(e.source, e.target) {
      if e !in one {
        var q :| 0 <= q < |two| && two[q] == e;
      }
    }
  }

  // ----- Merge with existing edges -----

  /** `edges.some(e => e.id === id)`: a scan from the front that stops at
      the first edge with that id. */
  predicate HasId(edges: seq<FlowEdge>, id: string)
    ensures HasId(edges, id) <==> exists k :: 0 <= k < |edges| && edges[k].id == id
  {
    edges != [] && (edges[0].id == id || HasId(edges[1..], id))
  }

  /** The existing edges whose id collides with no generated edge, in their
      original order. */
  function KeepCustom(existing: seq<FlowEdge>, generated: seq<FlowEdge>): (kept: seq<FlowEdge>)
    ensures |kept| <= |existing|
    ensures forall e :: e in kept <==> e in existing && !HasId(generated, e.id)
  {
    if existing == [] then []
    else
      var rest := KeepCustom(existing[1..], generated);
      if HasId(generated, existing[0].id) then rest else [existing[0]] + rest
  }

  function UpdateConnectionsForWorkflow(data: WorkflowData, existing: seq<FlowEdge>): (edges: seq<FlowEdge>)
    ensures |IntelligentConnections(data)| <= |edges|
    ensures edges[..|IntelligentConnections(data)|] == IntelligentConnections(data)
    ensures forall e :: e in edges[|IntelligentConnections(data)|..] <==>
      e in existing && !HasId(IntelligentConnections(data), e.id)
  {
    var generated := IntelligentConnections(data);
    var edges := generated + KeepCustom(existing, generated);
    assert edges[|generated|..] == KeepCustom(existing, generated);
    edges
  }

  /** Filtering distributes over concatenation: the relative order of the
      existing edges survives the merge. */
  lemma {:induction false} KeepCustomAppend(a: seq<FlowEdge>, b: seq<FlowEdge>, generated: seq<FlowEdge>)
    ensures KeepCustom(a + b, generated) == KeepCustom(a, generated) + KeepCustom(b, generated)
  {
    if a == [] {
      assert a + b == b;
    } else {
      assert (a + b)[0] == a[0];
      assert (a + b)[1..] == a[1..] + b;
      KeepCustomAppend(a[1..], b, generated);
      if !HasId(generated, a[0].id) {
        assert [a[0]] + (KeepCustom(a[1..], generated) + KeepCustom(b, generated))
          == ([a[0]] + KeepCustom(a[1..], generated)) + KeepCustom(b, generated);
      }
    }
  }

  /** Edges whose ids are all generated ones are all dropped. */
  lemma {:induction false} KeepCustomDropsGenerated(a: seq<FlowEdge>, generated: seq<FlowEdge>)
    requires forall e :: e in a ==> HasId(generated, e.id)
    ensures KeepCustom(a, generated) == []
  {
    if a != [] {
      assert a[0] in a;
      KeepCustomDropsGenerated(a[1..], generated);
    }
  }

  /** Filtering twice by the same generated list is filtering once. */
  lemma {:induction false} KeepCustomIdempotent(a: seq<FlowEdge>, generated: seq<FlowEdge>)
    ensures KeepCustom(KeepCustom(a, generated), generated) == KeepCustom(a, generated)
  {
    if a != [] {
      KeepCustomIdempotent(a[1..], generated);
      var rest := KeepCustom(a[1..], generated);
      if !HasId(generated, a[0].id) {
        assert ([a[0]] + rest)[1..] == rest;
      }
    }
  }

  /** Merging with no existing edges is plain generation. */
  lemma UpdateWithoutExisting(data: WorkflowData)
    ensures UpdateConnectionsForWorkflow(data, []) == IntelligentConnections(data)
  {
  }

  /** Merging is a fixed point: merging its own output again changes nothing. */
  lemma UpdateIsIdempotent(data: WorkflowData, existing: seq<FlowEdge>)
    ensures var once := UpdateConnectionsForWorkflow(data, existing);
      UpdateConnectionsForWorkflow(data, once) == once
  {
    var generated := IntelligentConnections(data);
    var kept := KeepCustom(existing, generated);
    var once := generated + kept;
    assert UpdateConnectionsForWorkflow(data, existing) == once;
    forall e | e in generated ensures HasId(generated, e.id) {
      var k :| 0 <= k < |generated| && generated[k] == e;
    }
    KeepCustomAppend(generated, kept, generated);
    KeepCustomDropsGenerated(generated, generated);
    KeepCustomIdempotent(existing, generated);
    assert KeepCustom(once, generated) == kept;
    assert UpdateConnectionsForWorkflow(data, once) == generated + KeepCustom(once, generated);
  }

  /** No existing edge whose id collides with a generated one survives, and
      every edge after the generated ones has a fresh id. */
  lemma UpdateDropsCollisions(data: WorkflowData, existing: seq<FlowEdge>)
    ensures var generated := IntelligentConnections(data);
      var merged := UpdateConnectionsForWorkflow(data, existing);
      forall k :: |generated| <= k < |merged| ==> !HasId(generated, merged[k].id) && merged[k] in existing
  {
    var generated := IntelligentConnections(data);
    var merged := UpdateConnectionsForWorkflow(data, existing);
    forall k | |generated| <= k < |merged|
      ensures !HasId(generated, merged[k].id) && merged[k] in existing
    {
      assert merged[k] in merged[|generated|..];
    }
  }
}
