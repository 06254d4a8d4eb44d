# Workflow canvas core, modelled in Dafny

This project models the logic behind the workflow canvas of the
react-flowchart application. It covers five parts.

- **Layout** (`layout_utils.dfy`). Given a workflow (stages, status nodes, entities) and a
  layout configuration, this computes the column spacing, the three row heights and the
  position of every stage, status circle and the entities group. It then builds the
  ordered node list that the canvas renders: the PMF tag, the workflow container, one
  node per stage, one per status, and the entities group.
- **Connections** (`connection_utils.dfy`). This generates the edges.
  - Each stage is linked to its status node. The first status that names the stage
    explicitly wins. Otherwise the status at the same index is used.
  - Each status is linked to the next stage.
  - Freshly generated edges are merged with edges the user already has. A custom edge
    whose id collides with a generated one is dropped.
- **Selection state** (`selection_context.dfy`). This covers the selection and
  view-customisation state shared by the single-view pages: its defaults, its three
  update operations, and the lookup that fails outside a provider.
- **Workflow service** (`workflow_service.dfy`).
  - The transformation of a workflow detail response. It sorts the stages in place by
    `order`, treating a missing order as 0, and gives every entity without a position
    the origin.
  - The workflow validity check.
- **Query keys** (`query_keys.dfy`). These are the cache keys for workflows, stages and
  entities.

Supporting files:

- `wrappers.dfy` holds `Option` and `Result`.
- `workflow_types.dfy` holds the workflow records and the layout configuration.

Lengths and coordinates are exact reals. They stand in for JavaScript numbers.

Code that works step by step is modelled as methods, each proved equal to a recursive
specification function:

- the node-building loops in `createDynamicNodes`;
- the two edge-generation passes;
- the in-place stage sort.

Pure expressions are modelled as functions, and the properties are proved as lemmas
about those functions.

Three facts about the code, as the model states them:

- Status nodes carry `connectedToEntities` (`components/workflow/types.ts:13`).
  `connection-utils.ts` never reads it, so no status-to-entity edge exists in the model
  (`ConnectionUtils.StatusEdgesExact`).
- The 20-unit minimum spacing (`layout-utils.ts:34`) clamps only the reported
  `stageSpacing`. The position functions use the raw value. When stages do not fit, the
  positions overlap even though the reported spacing is 20. `LayoutUtils.NeighbouringStages`
  states this in general, and `LayoutUtils.FourDefaultStagesOverlap` gives a concrete
  case with the default configuration.
- `transformWorkflowData` sorts the caller's stage array in place and returns that same
  array. `WorkflowService.TransformWorkflowData` states both the aliasing and the new
  contents.

## Model

| member | source | states |
|---|---|---|
| LayoutUtils.ColumnGap | src/components/workflow/layout-utils.ts:23-26 | with at most one stage the gap is 0; otherwise the two paddings, the stages and the gaps between them add up exactly to the workflow width, so the gap is negative when the stages do not fit |
| LayoutUtils.DefaultConfigFitsThreeStages | src/components/workflow/layout-utils.ts:6-26 | with the default configuration the raw gap is non-negative exactly when there are at most three stages |
| LayoutUtils.CalculateDynamicLayout | src/components/workflow/layout-utils.ts:16-51 | the reported spacing is at least 20 and at least the raw gap, and equals one of them; the stage row is at y 70; the circle row lies one stage height plus one vertical spacing below it; the entities row lies one circle size plus one vertical spacing below that; every stage position uses the raw gap; the entities group sits at the left padding |
| LayoutUtils.DynamicLayout.StagePosition | src/components/workflow/layout-utils.ts:38-41 | stage i sits at the padding plus i column steps of stage width plus gap, on the stage row |
| LayoutUtils.DynamicLayout.CirclePosition | src/components/workflow/layout-utils.ts:42-45 | circle i is centred horizontally under stage i, on the circle row |
| LayoutUtils.DynamicLayout.EntitiesPosition | src/components/workflow/layout-utils.ts:46-49 | the entities group is left-aligned with the first stage column, on the entities row |
| LayoutUtils.LastStageMeetsRightPadding | src/components/workflow/layout-utils.ts:24-41 | with two or more stages, the right edge of the last stage lies exactly at the workflow width minus the padding |
| LayoutUtils.NeighbouringStages | src/components/workflow/layout-utils.ts:24-41 | neighbouring stages are one stage width plus the raw gap apart; they do not overlap exactly when the raw gap is non-negative |
| LayoutUtils.FourDefaultStagesOverlap | src/components/workflow/layout-utils.ts:6-41 | with the default configuration and four stages, the reported spacing is the 20-unit minimum, yet stage 1 starts inside stage 0 |
| LayoutUtils.RowsAreStacked | src/components/workflow/layout-utils.ts:29-31 | for positive dimensions, stage row, circle row and entities row lie strictly top to bottom without overlapping |
| LayoutUtils.TagNode | src/components/workflow/layout-utils.ts:62-73 | the tag node has id "pmf-tag", sits at (20, 20) and has no parent |
| LayoutUtils.ContainerNode | src/components/workflow/layout-utils.ts:75-87 | the container node carries the workflow's id, sits at (20, 60) without a parent and has the workflow's configured width and height |
| LayoutUtils.StageNode | src/components/workflow/layout-utils.ts:90-108 | the node for stage i carries the stage's id, sits at stage position i, and is confined to the workflow container |
| LayoutUtils.StatusNode | src/components/workflow/layout-utils.ts:112-127 | the node for status j carries the status's id, sits at circle position j, and is confined to the workflow container |
| LayoutUtils.EntitiesGroupNode | src/components/workflow/layout-utils.ts:130-147 | the group node has id "entities-group", sits at the entities position inside the workflow, and carries the workflow's entities and the expansion flag |
| LayoutUtils.CreateDynamicNodes | src/components/workflow/layout-utils.ts:53-150 | the loop-built node list equals the specification list: tag, container, stage nodes, status nodes, entities group |
| LayoutUtils.StageNodesUpToAt | src/components/workflow/layout-utils.ts:89-109 | the stage loop produces exactly one node per stage, in stage order |
| LayoutUtils.StatusNodesUpToAt | src/components/workflow/layout-utils.ts:111-128 | the status loop produces exactly one node per status, in status order |
| LayoutUtils.DynamicNodesSplit | src/components/workflow/layout-utils.ts:59-149 | the node list has 3 + stages + statuses entries; tag first, container second, then the stage block, the status block, and the entities group last |
| LayoutUtils.StageNodeAt | src/components/workflow/layout-utils.ts:89-109 | node 2 + i is the node built for stage i |
| LayoutUtils.StatusNodeAt | src/components/workflow/layout-utils.ts:111-128 | node 2 + stages + j is the node built for status j |
| LayoutUtils.NodeOrder | src/components/workflow/layout-utils.ts:59-149 | node ids and kinds appear in the order tag, workflow, each stage ("stage"), each status ("circular"), entities group |
| LayoutUtils.StageNodePlacement | src/components/workflow/layout-utils.ts:89-109 | the node of stage i has the stage's id; it sits at the padding plus i steps of stage width plus raw gap, on row 70, with the workflow as parent and the stage width and height as style |
| LayoutUtils.StatusNodePlacement | src/components/workflow/layout-utils.ts:111-128 | status j is placed centred under column j on the circle row, whatever stage it names, with the workflow as parent |
| LayoutUtils.FixedNodes | src/components/workflow/layout-utils.ts:62-147 | the tag sits at (20, 20) and the container at (20, 60), both without a parent, and the container is sized to the workflow; the entities group sits at the left padding on the entities row, inside the workflow, and carries all entities and the expansion flag |
| LayoutUtils.ExpansionOnlyChangesGroupPayload | src/components/workflow/layout-utils.ts:130-147 | toggling the expansion flag leaves every node but the entities group unchanged, and changes only that group's payload |
| ConnectionUtils.CorrespondingStatus | src/components/workflow/connection-utils.ts:11-13 | a found status is one of the workflow's statuses; a status at the stage's own index guarantees a match; a match that does not name the stage is the status at the stage's index |
| ConnectionUtils.StageEdge | src/components/workflow/connection-utils.ts:15-23 | stage i has an edge exactly when it has a corresponding status; the edge leaves stage i for that status, in black, with id source + "-to-" + target |
| ConnectionUtils.StatusEdge | src/components/workflow/connection-utils.ts:27-37 | status j has an edge exactly when a stage exists at j + 1; the edge goes from status j to that stage, in grey, with id source + "-to-" + target |
| ConnectionUtils.HasId | src/components/workflow/connection-utils.ts:52 | the front-to-back scan finds the id exactly when some edge carries it |
| ConnectionUtils.Connect | src/components/workflow/connection-utils.ts:15-23 | a generated edge joins the given source and target with the given stroke, and its id is source + "-to-" + target |
| ConnectionUtils.FirstExplicitStatus | src/components/workflow/connection-utils.ts:11-12 | a found index lies within the status list and points at a status whose connectedToStage is the stage id |
| ConnectionUtils.FirstExplicitStatusIsFirst | src/components/workflow/connection-utils.ts:11-12 | no status before the found one names the stage, and nothing is found exactly when no status names it |
| ConnectionUtils.GenerateIntelligentConnections | src/components/workflow/connection-utils.ts:4-41 | the two loops return exactly the stage-to-status edges followed by the status-to-stage edges of the specification |
| ConnectionUtils.PushStageEdges | src/components/workflow/connection-utils.ts:9-24 | the first loop pushes, in stage order, the edge of each stage that has a corresponding status |
| ConnectionUtils.PushStageEdge | src/components/workflow/connection-utils.ts:10-23 | one iteration of the first loop appends the stage's edge when the stage has a corresponding status, and nothing otherwise |
| ConnectionUtils.PushStatusEdge | src/components/workflow/connection-utils.ts:28-37 | one iteration of the second loop appends the status's edge when a next stage exists, and nothing otherwise |
| ConnectionUtils.PushStatusEdges | src/components/workflow/connection-utils.ts:27-38 | the second loop appends, in status order, the edge of each status that has a next stage, after the edges already pushed |
| ConnectionUtils.ExplicitBeatsPositional | src/components/workflow/connection-utils.ts:11-23 | when status j is the first to name stage i, the stage edge goes from stage i to status j in black |
| ConnectionUtils.PositionalFallback | src/components/workflow/connection-utils.ts:11-23 | when no status names stage i, the stage edge goes to status i if one exists, and otherwise no edge is made |
| ConnectionUtils.DanglingReferenceNeverMatches | src/components/workflow/connection-utils.ts:11-13 | a status naming no existing stage is never chosen as a stage's explicit status |
| ConnectionUtils.StageEdgesComeFromStages | src/components/workflow/connection-utils.ts:9-24 | the first pass makes no more edges than there are stages, and each edge is the edge of some stage |
| ConnectionUtils.StageEdgesAreDark | src/components/workflow/connection-utils.ts:15-23 | every first-pass edge is black and has id source + "-to-" + target |
| ConnectionUtils.StageEdgesCoverStages | src/components/workflow/connection-utils.ts:9-24 | every stage that has an edge contributes it to the first pass |
| ConnectionUtils.StageEdgesWhenEnoughStatuses | src/components/workflow/connection-utils.ts:9-24 | with at least as many statuses as stages, the first pass yields exactly one edge per stage, in stage order, each leaving its stage |
| ConnectionUtils.StageWithStatusHasEdge | src/components/workflow/connection-utils.ts:11-15 | a stage whose index has a status (by position) always gets an edge leaving it, since the fallback then finds a status |
| ConnectionUtils.StatusEdgesExact | src/components/workflow/connection-utils.ts:27-38 | the second pass yields min(statuses, stages - 1) edges (none without stages); edge j goes from status j to stage j + 1 in grey; nothing links statuses to entities |
| ConnectionUtils.GeneratedEdgesShape | src/components/workflow/connection-utils.ts:4-41 | every generated id is source + "-to-" + target; first-pass edges are black and second-pass edges grey |
| ConnectionUtils.KeepCustom | src/components/workflow/connection-utils.ts:51-53 | an existing edge is kept exactly when no generated edge has its id |
| ConnectionUtils.UpdateConnectionsForWorkflow | src/components/workflow/connection-utils.ts:43-56 | the result starts with the generated edges, and the rest are exactly the existing edges whose id no generated edge uses |
| ConnectionUtils.KeepCustomAppend | src/components/workflow/connection-utils.ts:51-53 | filtering distributes over concatenation |
| ConnectionUtils.KeepCustomDropsGenerated | src/components/workflow/connection-utils.ts:51-53 | edges whose ids are all generated are all dropped |
| ConnectionUtils.KeepCustomIdempotent | src/components/workflow/connection-utils.ts:51-53 | filtering twice equals filtering once |
| ConnectionUtils.UpdateWithoutExisting | src/components/workflow/connection-utils.ts:43-56 | with no existing edges (the default) the result is the generated edges |
| ConnectionUtils.UpdateIsIdempotent | src/components/workflow/connection-utils.ts:43-56 | updating an already updated edge list changes nothing |
| ConnectionUtils.UpdateDropsCollisions | src/components/workflow/connection-utils.ts:51-55 | every edge after the generated prefix is an existing edge whose id no generated edge uses |
| SelectionContext.DefaultSelection | src/components/SingleView/context/SelectionContext.tsx:13-26 | the provider starts with nothing selected and all three view options on |
| SelectionContext.UpdateSelection | src/components/SingleView/context/SelectionContext.tsx:28-34 | the selection becomes the given type and id; customisations are untouched |
| SelectionContext.MergeCustomizations | src/components/SingleView/context/SelectionContext.tsx:36-41 | each flag takes the partial's value when given and keeps the current value otherwise |
| SelectionContext.UpdateCustomizations | src/components/SingleView/context/SelectionContext.tsx:36-41 | the selection is untouched; customisations become the merge |
| SelectionContext.ClearSelection | src/components/SingleView/context/SelectionContext.tsx:43-45 | nothing is selected and all three view flags are on |
| SelectionContext.UseSelection | src/components/SingleView/context/SelectionContext.tsx:59-65 | fails exactly when no provider value exists, with the provider message; otherwise returns the provided state |
| SelectionContext.UpdateSelectionIdempotent | src/components/SingleView/context/SelectionContext.tsx:28-34 | selecting the same item twice equals selecting it once |
| SelectionContext.EmptyCustomizationIsIdentity | src/components/SingleView/context/SelectionContext.tsx:36-41 | an empty partial update changes nothing |
| SelectionContext.CustomizationsCompose | src/components/SingleView/context/SelectionContext.tsx:36-41 | two partial updates equal one update in which the later partial's given flags override the earlier one's |
| SelectionContext.ClearRestoresDefault | src/components/SingleView/context/SelectionContext.tsx:13-45 | clearing yields the initial default state, whatever was selected before |
| WorkflowService.InsertByOrder | src/services/workflowService.ts:54 | one insertion step of the stable sort grows the list by exactly one stage (where it goes is stated by InsertSplit) |
| WorkflowService.SortByOrder | src/services/workflowService.ts:54 | the sort keeps the number of stages (order, permutation and stability are the three Sort lemmas) |
| WorkflowService.WithDefaultPosition | src/services/workflowService.ts:55-58 | every entity ends with a position; a present position is kept and the entity is unchanged; a missing one becomes the origin; no other field changes |
| WorkflowService.OrderKey | src/services/workflowService.ts:54 | the sort key is the stage's order, or 0 when it has none |
| WorkflowService.InsertKeepsSorted | src/services/workflowService.ts:54 | inserting into a sorted list keeps it sorted and adds only the new stage |
| WorkflowService.InsertKeepsKeyOrder | src/services/workflowService.ts:54 | inserting keeps the stages of each key in their arrival order, with the new stage last |
| WorkflowService.InsertIsPermutation | src/services/workflowService.ts:54 | inserting adds exactly the new stage to the multiset |
| WorkflowService.SortIsSorted | src/services/workflowService.ts:54 | the sorted stages are in non-decreasing order key |
| WorkflowService.SortIsPermutation | src/services/workflowService.ts:54 | the sort is a permutation of its input |
| WorkflowService.SortIsStable | src/services/workflowService.ts:54 | stages with equal keys keep their original relative order |
| WorkflowService.InsertSplit | src/services/workflowService.ts:54 | the insertion puts the stage after all keys not greater than its own and before the greater ones |
| WorkflowService.ShiftGreater | src/services/workflowService.ts:54 | shifts the stages with a greater key than a[i] one place right and returns the gap they leave |
| WorkflowService.InsertIntoSortedPrefix | src/services/workflowService.ts:54 | after the step, the prefix through i is the specification insertion of a[i] into the sorted prefix; the rest is unchanged |
| WorkflowService.SortStagesInPlace | src/services/workflowService.ts:54 | the array afterwards holds the stable sort by order key of its old contents |
| WorkflowService.DefaultEntityPositions | src/services/workflowService.ts:55-58 | one entity per entity, in order; each keeps every field but position, which keeps its value or becomes the origin |
| WorkflowService.DefaultPositionsIdempotent | src/services/workflowService.ts:55-58 | defaulting positions twice equals defaulting once |
| WorkflowService.TransformWorkflowData | src/services/workflowService.ts:51-60 | workflow and status nodes are copied; a present stage array is returned itself, sorted in place; a missing one becomes a new empty array; missing entities become empty; entity positions are defaulted; the workflow record itself is carried over unchanged, so its id and title, and with them the validation verdict, stay the same |
| WorkflowService.ValidateWorkflowData | src/services/workflowService.ts:62-64 | valid exactly when data is present with a non-empty id and a non-empty title |
| QueryKeys.WorkflowsAll | src/constants/queryKeys.ts:3 | the workflows family's root key is the single element "workflows" |
| QueryKeys.WorkflowsLists | src/constants/queryKeys.ts:4 | the lists key strictly extends the workflows root by one element |
| QueryKeys.WorkflowsList | src/constants/queryKeys.ts:5 | a list key strictly extends the lists key and ends with its filters object |
| QueryKeys.WorkflowsDetails | src/constants/queryKeys.ts:6 | the details key strictly extends the workflows root by one element |
| QueryKeys.WorkflowsDetail | src/constants/queryKeys.ts:7 | a detail key strictly extends the details key and ends with its id |
| QueryKeys.WorkflowsSearch | src/constants/queryKeys.ts:8 | a search key strictly extends the workflows root, has three elements and ends with its search text |
| QueryKeys.WorkflowStagesAll | src/constants/queryKeys.ts:11 | the stages family's root key is the single element "workflowStages" |
| QueryKeys.WorkflowStagesByWorkflow | src/constants/queryKeys.ts:12 | a stages-by-workflow key strictly extends the stages root, has three elements and ends with the workflow id |
| QueryKeys.WorkflowEntitiesAll | src/constants/queryKeys.ts:15 | the entities family's root key is the single element "workflowEntities" |
| QueryKeys.WorkflowEntitiesByWorkflow | src/constants/queryKeys.ts:16 | an entities-by-workflow key strictly extends the entities root, has three elements and ends with the workflow id |
| QueryKeys.KeyShapes | src/constants/queryKeys.ts:2-17 | each key builder yields its literal key shape |
| QueryKeys.WorkflowKeysExtendAll | src/constants/queryKeys.ts:2-17 | every workflow, stage or entity key strictly extends its family's "all" key, so invalidating that key covers it |
| QueryKeys.BuildersInjective | src/constants/queryKeys.ts:5-16 | different arguments give different keys |
| QueryKeys.BuildersDisjoint | src/constants/queryKeys.ts:5-16 | for all ten pairs of the five parameterised builders, a key from one never equals a key from the other, whatever the arguments |

## Left out

- The `onClick` handlers of the tag, container, stage and status nodes are not modelled. They only log to the console.
- `onToggleEntities` is kept as an opaque `CallbackToken`, because a function value cannot be compared. Calling it is not modelled.
- The per-node `type` strings inside the data payloads are left out.
- The edge fields `type: 'smoothstep'` and `strokeWidth` are left out.
- React Flow's `extent: 'parent'` is kept as a boolean.
- Coordinates and `order` are exact reals. IEEE-754 rounding, `NaN` and infinities are not modelled.
- `OrderKey`: an `order` of `NaN`, which `|| 0` also maps to 0, is not modelled.
- `SortStagesInPlace` replaces the JavaScript engine's sort algorithm with an insertion sort. The engine's sort is stable, so every stable sort gives the same array, and the contract states that array.
- `ValidateWorkflowData`: the source accepts any value. The model takes only an absent candidate, or one whose `id` and `title` are absent or strings. Numeric and object ids are not modelled.
- `UpdateCustomizations`: a partial object whose field is explicitly `undefined` is not modelled. A field is either given a boolean or absent.
- `TransformWorkflowData` models the detail record with its workflow fields nested, not spread at the top level as in the source.
- Other fields are copied unchanged and are not modelled separately. This includes entity `attributes`.
- The React provider, the state cell and re-rendering are not modelled. Selection state is a value, and the three updates are functions from the old state to the new one.
- `useSelection` is modelled as a lookup of an optional provider value. Its context value is the selection state alone, without the dispatch functions.
- Status-to-entity edges are not generated, because `connection-utils.ts` never reads `connectedToEntities`.
- The rest of `workflowService.ts` (date formatting, snackbar helpers, breadcrumbs) is not part of this model. Neither is the HTTP layer that fetches the records.
- React Query's matching of keys by prefix is not modelled. `QueryKeys.WorkflowKeysExtendAll` states the prefix relation it relies on.
