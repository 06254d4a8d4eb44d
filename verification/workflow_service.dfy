/** Records of the workflow detail as a backend would return it
    (src/models/responses/workflow/IWorkflowResponseModel.ts). */
module ResponseModels {
  import opened Wrappers
  import opened WorkflowTypes

  datatype WorkflowStatus = Active | Inactive | Draft

  datatype WorkflowRecord = WorkflowRecord(
    id: string,
    title: string,
    description: string,
    createdAt: Option<string>,
    updatedAt: Option<string>,
    status: Option<WorkflowStatus>,
    createdBy: Option<string>)

  datatype StageRecord = StageRecord(
    id: string,
    workflowId: string,
    title: string,
    description: string,
    color: Option<string>,
    order: Option<real>,
    createdAt: Option<string>,
    updatedAt: Option<string>)

  datatype StatusNodeRecord = StatusNodeRecord(
    id: string,
    workflowId: string,
    stageId: Option<string>,
    labelText: string,  // `label` in the source; `label` is a Dafny keyword
    color: Option<string>,
    connectedToStage: Option<string>,
    connectedToEntities: Option<seq<string>>,
    position: Option<Point>,
    createdAt: Option<string>,
    updatedAt: Option<string>)

  datatype EntityRecord = EntityRecord(
    id: string,
    workflowId: string,
    title: string,
    color: Option<string>,
    entityType: Option<string>,  // `type` in the source
    position: Option<Point>,
    createdAt: Option<string>,
    updatedAt: Option<string>)

  /** The detail record as received. Its stage list is an array the caller
      owns; `stages` and `entities` may be missing. */
  datatype WorkflowDetail = WorkflowDetail(
    workflow: WorkflowRecord,
    stages: Option<array<StageRecord>>,
    statusNodes: seq<StatusNodeRecord>,
    entities: Option<seq<EntityRecord>>)

  /** The detail record after transformation: both lists present. */
  datatype TransformedDetail = TransformedDetail(
    workflow: WorkflowRecord,
    stages: array<StageRecord>,
    statusNodes: seq<StatusNodeRecord>,
    entities: seq<EntityRecord>)
}

/** Workflow data helpers (src/services/workflowService.ts): ordering the
    stages, defaulting entity positions, and the validity check. */
module WorkflowService {
  import opened Wrappers
  import opened WorkflowTypes
  import opened ResponseModels

  // ----- Stage order -----

  /** `order || 0`. */
  function OrderKey(stage: StageRecord): (k: real)
    ensures stage.order.None? ==> k == 0.0
    ensures stage.order.Some? ==> k == stage.order.value
  {
    stage.order.GetOr(0.0)
  }

  predicate SortedByOrder(s: seq<StageRecord>) {
    forall p, q :: 0 <= p < q < |s| ==> OrderKey(s[p]) <= OrderKey(s[q])
  }

  /** Inserts `x` after every element of `sorted` whose key is not greater
      than its own, scanning from the right. */
  function InsertByOrder(sorted: seq<StageRecord>, x: StageRecord): (r: seq<StageRecord>)
    ensures |r| == |sorted| + 1
  {
    if sorted == [] then [x]
    else
      var last := sorted[|sorted| - 1];
      if OrderKey(last) > OrderKey(x) then
        assert sorted == sorted[..|sorted| - 1] + [last];
        InsertByOrder(sorted[..|sorted| - 1], x) + [last]
      else sorted + [x]
  }

  /** The stable ascending sort of the stages by `order || 0`: the result of
      `Array.prototype.sort` with the comparator `(a, b) => key(a) - key(b)`. */
  function SortByOrder(s: seq<StageRecord>): (r: seq<StageRecord>)
    ensures |r| == |s|
  {
    if s == [] then [] else InsertByOrder(SortByOrder(s[..|s| - 1]), s[|s| - 1])
  }

  /** The stages whose key is `key`, in their relative order. */
  function WithKey(s: seq<StageRecord>, key: real): seq<StageRecord>
  {
    if s == [] then []
    else WithKey(s[..|s| - 1], key) + (if OrderKey(s[|s| - 1]) == key then [s[|s| - 1]] else [])
  }

  /** A non-empty sequence is its front followed by its last element. */
  lemma SplitLast<T>(s: seq<T>)
    requires s != []
    ensures s == s[..|s| - 1] + [s[|s| - 1]]
  {
  }

  lemma {:induction false} InsertKeepsSorted(sorted: seq<StageRecord>, x: StageRecord)
    requires SortedByOrder(sorted)
    ensures SortedByOrder(InsertByOrder(sorted, x))
    ensures forall k :: 0 <= k < |InsertByOrder(sorted, x)| ==>
      InsertByOrder(sorted, x)[k] == x || InsertByOrder(sorted, x)[k] in sorted
  {
    if sorted != [] {
      var last := sorted[|sorted| - 1];
      var init := sorted[..|sorted| - 1];
      if OrderKey(last) > OrderKey(x) {
        InsertKeepsSorted(init, x);
        var r := InsertByOrder(init, x);
        forall k | 0 <= k < |r| ensures OrderKey(r[k]) <= OrderKey(last) {
          if r[k] != x {
            var m :| 0 <= m < |init| && init[m] == r[k];
          }
        }
      }
    }
  }

  lemma {:induction false} WithKeySnoc(s: seq<StageRecord>, y: StageRecord, key: real)
    ensures WithKey(s + [y], key) == WithKey(s, key) + (if OrderKey(y) == key then [y] else [])
  {
    PrefixOfSnoc(s, y);
  }

  lemma {:induction false} InsertPastGreater(init: seq<StageRecord>, last: StageRecord, x: StageRecord, key: real)
    requires OrderKey(last) > OrderKey(x)
    requires WithKey(InsertByOrder(init, x), key) == WithKey(init + [x], key)
    ensures WithKey(InsertByOrder(init + [last], x), key) == WithKey(init + [last] + [x], key)
  {
    var r := InsertByOrder(init, x);
    var xs := if OrderKey(x) == key then [x] else [];
    var ls := if OrderKey(last) == key then [last] else [];
    PrefixOfSnoc(init, last);
    assert InsertByOrder(init + [last], x) == r + [last];
    WithKeySnoc(r, last, key);
    WithKeySnoc(init, x, key);
    WithKeySnoc(init, last, key);
    WithKeySnoc(init + [last], x, key);
    SwapEmpty(WithKey(init, key), xs, ls);
  }

  lemma PrefixOfSnoc<T>(s: seq<T>, y: T)
    ensures (s + [y])[..|s|] == s
  {
  }

  /** Two pieces of which one is empty can be appended in either order. */
  lemma SwapEmpty<T>(a: seq<T>, b: seq<T>, c: seq<T>)
    requires b == [] || c == []
    ensures a + b + c == a + c + b
  {
    if b == [] {
      assert a + b == a;
    } else {
      assert a + c == a;
    }
  }

  /** Only elements with a key greater than `x`'s are passed over, so among
      equal keys `x` lands last. */
  lemma {:induction false} InsertKeepsKeyOrder(sorted: seq<StageRecord>, x: StageRecord, key: real)
    ensures WithKey(InsertByOrder(sorted, x), key) == WithKey(sorted + [x], key)
  {
    if sorted != [] {
      var last := sorted[|sorted| - 1];
      var init := sorted[..|sorted| - 1];
      if OrderKey(last) > OrderKey(x) {
        InsertKeepsKeyOrder(init, x, key);
        SplitLast(sorted);
        InsertPastGreater(init, last, x, key);
      }
    }
  }

  /** The sort result is ordered by key. */
  lemma {:induction false} SortIsSorted(s: seq<StageRecord>)
    ensures SortedByOrder(SortByOrder(s))
  {
    if s != [] {
      SortIsSorted(s[..|s| - 1]);
      InsertKeepsSorted(SortByOrder(s[..|s| - 1]), s[|s| - 1]);
    }
  }

  lemma {:induction false} InsertIsPermutation(sorted: seq<StageRecord>, x: StageRecord)
    ensures multiset(InsertByOrder(sorted, x)) == multiset(sorted) + multiset{x}
  {
    if sorted != [] {
      var last := sorted[|sorted| - 1];
      var init := sorted[..|sorted| - 1];
      SplitLast(sorted);
      if OrderKey(last) > OrderKey(x) {
        InsertIsPermutation(init, x);
      }
    }
  }

  /** The sort result is a permutation of the input: nothing added or dropped. */
  lemma {:induction false} SortIsPermutation(s: seq<StageRecord>)
    ensures |SortByOrder(s)| == |s|
    ensures multiset(SortByOrder(s)) == multiset(s)
  {
    if s != [] {
      var init := s[..|s| - 1];
      var x := s[|s| - 1];
      SortIsPermutation(init);
      InsertIsPermutation(SortByOrder(init), x);
      SplitLast(s);
    }
  }

  /** The sort is stable: stages with equal keys keep their relative order. */
  lemma {:induction false} SortIsStable(s: seq<StageRecord>, key: real)
    ensures WithKey(SortByOrder(s), key) == WithKey(s, key)
  {
    if s != [] {
      var init := s[..|s| - 1];
      SortIsStable(init, key);
      InsertKeepsKeyOrder(SortByOrder(init), s[|s| - 1], key);
      var withX := SortByOrder(init) + [s[|s| - 1]];
      assert withX[..|withX| - 1] == SortByOrder(init);
    }
  }

  /** Where the scan from the right stops: past exactly the trailing
      elements with a key greater than `x`'s. */
  lemma {:induction false} InsertSplit(sorted: seq<StageRecord>, x: StageRecord, j: nat)
    requires j <= |sorted|
    requires forall k :: j <= k < |sorted| ==> OrderKey(sorted[k]) > OrderKey(x)
    requires j > 0 ==> OrderKey(sorted[j - 1]) <= OrderKey(x)
    ensures InsertByOrder(sorted, x) == sorted[..j] + [x] + sorted[j..]
    decreases |sorted| - j
  {
    if j < |sorted| {
      var init := sorted[..|sorted| - 1];
      InsertSplit(init, x, j);
      SpliceBeforeLast(sorted, x, j);
    } else {
      assert sorted[..j] == sorted;
    }
  }

  /** Splicing `x` in at `j` before or after appending the last element
      gives the same sequence, when `j` lies before that element. */
  lemma SpliceBeforeLast<T>(s: seq<T>, x: T, j: nat)
    requires j < |s|
    ensures s[..|s| - 1][..j] + [x] + s[..|s| - 1][j..] + [s[|s| - 1]] == s[..j] + [x] + s[j..]
  {
    assert s[j..] == s[..|s| - 1][j..] + [s[|s| - 1]];
  }

  /** The array after the scan: the prefix before `j`, then `x`, then the
      rest of the prefix shifted one place right. */
  lemma InsertedLayout(sorted: seq<StageRecord>, x: StageRecord, j: nat, arr: seq<StageRecord>)
    requires j <= |sorted| && |arr| == |sorted| + 1
    requires forall k :: 0 <= k < j ==> arr[k] == sorted[k]
    requires arr[j] == x
    requires forall k :: j < k <= |sorted| ==> arr[k] == sorted[k - 1]
    ensures arr == sorted[..j] + [x] + sorted[j..]
  {
    var expected := sorted[..j] + [x] + sorted[j..];
    forall k | 0 <= k < |arr| ensures arr[k] == expected[k] {
      if k < j {
        assert expected[k] == sorted[k];
      } else if j < k {
        assert expected[k] == sorted[k - 1];
      }
    }
  }

  /** Shifts the elements of `a[..i]` with a key greater than `a[i]`'s one
      place right, scanning from the right, and returns the gap left open. */
  method ShiftGreater(a: array<StageRecord>, i: nat) returns (j: nat)
    requires i < a.Length
    modifies a
    ensures j <= i
    ensures forall k :: 0 <= k < j ==> a[k] == old(a[k])
    ensures forall k :: j < k <= i ==> a[k] == old(a[k - 1])
    ensures forall k :: i < k < a.Length ==> a[k] == old(a[k])
    ensures forall k :: j <= k < i ==> OrderKey(old(a[k])) > OrderKey(old(a[i]))
    ensures j > 0 ==> OrderKey(old(a[j - 1])) <= OrderKey(old(a[i]))
  {
    var x := a[i];
    j := i;
    while j > 0 && OrderKey(a[j - 1]) > OrderKey(x)
      invariant 0 <= j <= i
      invariant forall k :: 0 <= k < j ==> a[k] == old(a[k])
      invariant forall k :: j < k <= i ==> a[k] == old(a[k - 1])
      invariant forall k :: i < k < a.Length ==> a[k] == old(a[k])
      invariant forall k :: j <= k < i ==> OrderKey(old(a[k])) > OrderKey(x)
    {
      a[j] := a[j - 1];
      j := j - 1;
    }
  }

  /** Moves `a[i]` left past the greater keys of `a[..i]`. */
  method InsertIntoSortedPrefix(a: array<StageRecord>, i: nat)
    requires i < a.Length
    modifies a
    ensures a[..i + 1] == InsertByOrder(old(a[..i]), old(a[i]))
    ensures forall k :: i < k < a.Length ==> a[k] == old(a[k])
  {
    ghost var sorted := a[..i];
    var x := a[i];
    var j := ShiftGreater(a, i);
    a[j] := x;
    InsertSplit(sorted, x, j);
    InsertedLayout(sorted, x, j, a[..i + 1]);
  }

  /** Sorts the caller's stage array in place (stable insertion sort). */
  method SortStagesInPlace(a: array<StageRecord>)
    modifies a
    ensures a[..] == SortByOrder(old(a[..]))
  {
    ghost var input := a[..];
    var i := 0;
    while i < a.Length
      invariant 0 <= i <= a.Length
      invariant a[..i] == SortByOrder(input[..i])
      invariant forall k :: i <= k < a.Length ==> a[k] == input[k]
    {
      InsertIntoSortedPrefix(a, i);
      assert input[..i + 1][..i] == input[..i];
      i := i + 1;
    }
    assert a[..] == a[..a.Length];
    assert input == input[..a.Length];
  }

  // ----- Entity positions -----

  const Origin := Point(0.0, 0.0)

  /** `{ ...entity, position: entity.position || { x: 0, y: 0 } }`. */
  function WithDefaultPosition(e: EntityRecord): (r: EntityRecord)
    ensures r.position.Some?
    ensures e.position.Some? ==> r == e
    ensures e.position.None? ==> r.position == Some(Origin)
    ensures r.(position := e.position) == e
  {
    e.(position := Some(e.position.GetOr(Origin)))
  }

  function DefaultEntityPositions(entities: seq<EntityRecord>): (r: seq<EntityRecord>)
    ensures |r| == |entities|
    ensures forall i :: 0 <= i < |r| ==>
      && r[i].(position := entities[i].position) == entities[i]
      && r[i].position == (if entities[i].position.Some? then entities[i].position else Some(Origin))
  {
    seq(|entities|, i requires 0 <= i < |entities| => WithDefaultPosition(entities[i]))
  }

  /** Defaulting positions twice is defaulting them once. */
  lemma DefaultPositionsIdempotent(entities: seq<EntityRecord>)
    ensures DefaultEntityPositions(DefaultEntityPositions(entities)) == DefaultEntityPositions(entities)
  {
  }

  // ----- The transformation -----

  function StagesFootprint(data: WorkflowDetail): set<object> {
    if data.stages.Some? then {data.stages.value} else {}
  }

  /** Copies the record, sorting the caller's stage array in place and
      returning that same array (a fresh empty one when stages are missing),
      and defaulting the entity positions into a new list. */
  method TransformWorkflowData(data: WorkflowDetail) returns (r: TransformedDetail)
    modifies StagesFootprint(data)
    ensures r.workflow == data.workflow && r.statusNodes == data.statusNodes
    ensures data.stages.Some? ==> r.stages == data.stages.value && r.stages[..] == SortByOrder(old(r.stages[..]))
    ensures data.stages.None? ==> fresh(r.stages) && r.stages.Length == 0
    ensures r.entities == DefaultEntityPositions(data.entities.GetOr([]))
  {
    var stages: array<StageRecord>;
    if data.stages.Some? {
      stages := data.stages.value;
      SortStagesInPlace(stages);
    } else {
      stages := new StageRecord[0];
    }
    var entities := if data.entities.Some? then DefaultEntityPositions(data.entities.value) else [];
    r := TransformedDetail(data.workflow, stages, data.statusNodes, entities);
  }

  // ----- Validation -----

  /** What the untyped check can see of a value: whether it is there at all
      and, if so, its `id` and `title`. */
  datatype Candidate = Candidate(id: Option<string>, title: Option<string>)

  /** A string is truthy exactly when it is non-empty. */
  predicate Truthy(s: Option<string>) {
    s.Some? && s.value != ""
  }

  function ValidateWorkflowData(data: Option<Candidate>): (valid: bool)
    ensures valid <==> (data.Some? && data.value.id.Some? && data.value.id.value != ""
                        && data.value.title.Some? && data.value.title.value != "")
  {
    match data
    case None => false
    case Some(c) => Truthy(c.id) && Truthy(c.title)
  }
}
