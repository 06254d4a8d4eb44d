/** Cache keys for the data queries (src/constants/queryKeys.ts). A key is a
    list; a key that extends another key's list belongs to its family. */
module QueryKeys {

  /** A key element: a string, or the `{ filters }` object of a list key. */
  datatype KeyPart = Text(text: string) | Filters(filters: string)

  type QueryKey = seq<KeyPart>

  /** The root of the workflows family. */
  function WorkflowsAll(): (k: QueryKey)
    ensures |k| == 1 && k[0] == Text("workflows")
  {
    [Text("workflows")]
  }

  function WorkflowsLists(): (k: QueryKey)
    ensures WorkflowsAll() < k && |k| == 2
  {
    WorkflowsAll() + [Text("list")]
  }

  function WorkflowsList(filters: string): (k: QueryKey)
    ensures WorkflowsLists() < k && k[|k| - 1] == Filters(filters)
  {
    WorkflowsLists() + [Filters(filters)]
  }

  function WorkflowsDetails(): (k: QueryKey)
    ensures WorkflowsAll() < k && |k| == 2
  {
    WorkflowsAll() + [Text("detail")]
  }

  function WorkflowsDetail(id: string): (k: QueryKey)
    ensures WorkflowsDetails() < k && k[|k| - 1] == Text(id)
  {
    WorkflowsDetails() + [Text(id)]
  }

  function WorkflowsSearch(searchText: string): (k: QueryKey)
    ensures WorkflowsAll() < k && |k| == 3 && k[|k| - 1] == Text(searchText)
  {
    WorkflowsAll() + [Text("search"), Text(searchText)]
  }

  /** The root of the stages family. */
  function WorkflowStagesAll(): (k: QueryKey)
    ensures |k| == 1 && k[0] == Text("workflowStages")
  {
    [Text("workflowStages")]
  }

  function WorkflowStagesByWorkflow(workflowId: string): (k: QueryKey)
    ensures WorkflowStagesAll() < k && |k| == 3 && k[|k| - 1] == Text(workflowId)
  {
    WorkflowStagesAll() + [Text("byWorkflow"), Text(workflowId)]
  }

  /** The root of the entities family. */
  function WorkflowEntitiesAll(): (k: QueryKey)
    ensures |k| == 1 && k[0] == Text("workflowEntities")
  {
    [Text("workflowEntities")]
  }

  function WorkflowEntitiesByWorkflow(workflowId: string): (k: QueryKey)
    ensures WorkflowEntitiesAll() < k && |k| == 3 && k[|k| - 1] == Text(workflowId)
  {
    WorkflowEntitiesAll() + [Text("byWorkflow"), Text(workflowId)]
  }

  /** The literal shape of each key. */
  lemma KeyShapes(filters: string, id: string, searchText: string)
    ensures WorkflowsLists() == [Text("workflows"), Text("list")]
    ensures WorkflowsList(filters) == [Text("workflows"), Text("list"), Filters(filters)]
    ensures WorkflowsDetail(id) == [Text("workflows"), Text("detail"), Text(id)]
    ensures WorkflowsSearch(searchText) == [Text("workflows"), Text("search"), Text(searchText)]
    ensures WorkflowStagesByWorkflow(id) == [Text("workflowStages"), Text("byWorkflow"), Text(id)]
    ensures WorkflowEntitiesByWorkflow(id) == [Text("workflowEntities"), Text("byWorkflow"), Text(id)]
  {
  }

  /** Every workflows key strictly extends `all`; list keys extend `lists()`
      and detail keys extend `details()`. */
  lemma WorkflowKeysExtendAll(filters: string, id: string, searchText: string)
    ensures WorkflowsAll() < WorkflowsLists() < WorkflowsList(filters)
    ensures WorkflowsAll() < WorkflowsDetails() < WorkflowsDetail(id)
    ensures WorkflowsAll() < WorkflowsSearch(searchText)
    ensures WorkflowStagesAll() < WorkflowStagesByWorkflow(id)
    ensures WorkflowEntitiesAll() < WorkflowEntitiesByWorkflow(id)
  {
  }

  /** Each parameterised builder is injective in its argument. */
  lemma BuildersInjective(a: string, b: string)
    ensures WorkflowsList(a) == WorkflowsList(b) ==> a == b
    ensures WorkflowsDetail(a) == WorkflowsDetail(b) ==> a == b
    ensures WorkflowsSearch(a) == WorkflowsSearch(b) ==> a == b
    ensures WorkflowStagesByWorkflow(a) == WorkflowStagesByWorkflow(b) ==> a == b
    ensures WorkflowEntitiesByWorkflow(a) == WorkflowEntitiesByWorkflow(b) ==> a == b
  {
    assert WorkflowsList(a)[2] == Filters(a);
    assert WorkflowsDetail(a)[2] == Text(a);
    assert WorkflowsSearch(a)[2] == Text(a);
    assert WorkflowStagesByWorkflow(a)[2] == Text(a);
    assert WorkflowEntitiesByWorkflow(a)[2] == Text(a);
  }

  /** Keys from different builders never coincide: their first or second
      elements differ. */
  lemma BuildersDisjoint(a: string, b: string)
    ensures WorkflowsDetail(a) != WorkflowsSearch(b)
    ensures WorkflowsDetail(a) != WorkflowsList(b)
    ensures WorkflowsSearch(a) != WorkflowsList(b)
    ensures WorkflowStagesByWorkflow(a) != WorkflowEntitiesByWorkflow(b)
    ensures WorkflowsDetail(a) != WorkflowStagesByWorkflow(b) && WorkflowsDetail(a) != WorkflowEntitiesByWorkflow(b)
    ensures WorkflowsSearch(a) != WorkflowStagesByWorkflow(b) && WorkflowsSearch(a) != WorkflowEntitiesByWorkflow(b)
    ensures WorkflowsList(a) != WorkflowStagesByWorkflow(b) && WorkflowsList(a) != WorkflowEntitiesByWorkflow(b)
  {
    assert WorkflowsDetail(a)[1] == Text("detail");
    assert WorkflowsSearch(b)[1] == Text("search");
    assert WorkflowsList(b)[1] == Text("list");
    assert WorkflowStagesByWorkflow(b)[0] == Text("workflowStages");
    assert WorkflowEntitiesByWorkflow(b)[0] == Text("workflowEntities");
    assert WorkflowsDetail(a)[0] == Text("workflows");
    assert WorkflowsSearch(a)[0] == Text("workflows");
    assert WorkflowsList(a)[0] == Text("workflows");
  }
}
