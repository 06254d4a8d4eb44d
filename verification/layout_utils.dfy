/** The layout engine (src/components/workflow/layout-utils.ts): row and column
    arithmetic for the diagram, and the fixed-shape list of positioned nodes. */
module LayoutUtils {
  import opened Wrappers
  import opened WorkflowTypes

  const DefaultLayoutConfig := LayoutConfig(800.0, 450.0, 220.0, 90.0, 64.0, 30.0, 40.0)

  /** The y of the stage row, inside the container. */
  const StageRowY: real := 70.0

  /** The floor applied to the reported spacing (and only to it). */
  const MinimumSpacing: real := 20.0

  const TagId := "pmf-tag"
  const EntitiesGroupId := "entities-group"
  const TagPosition := Point(20.0, 20.0)
  const ContainerPosition := Point(20.0, 60.0)

  /** The horizontal gap between consecutive stages that the position
      functions use: the free interior width shared among the gaps, or 0
      for at most one stage. It is negative when the stages do not fit. */
  function ColumnGap(stageCount: nat, config: LayoutConfig): (g: real)
    ensures stageCount <= 1 ==> g == 0.0
    ensures stageCount > 1 ==>
      2.0 * config.padding + stageCount as real * config.stageWidth + (stageCount - 1) as real * g == config.workflowWidth
  {
    if stageCount > 1 then
      (config.workflowWidth - 2.0 * config.padding - stageCount as real * config.stageWidth) / (stageCount - 1) as real
    else 0.0
  }

  /** What the layout calculation returns. `stageSpacing`, `stageY`, `circleY`
      and `entitiesY` are the reported fields; `gap`, `padding`, `stageWidth`
      and `circleSize` are what the three position closures capture. */
  datatype DynamicLayout = DynamicLayout(
    stageSpacing: real,
    stageY: real,
    circleY: real,
    entitiesY: real,
    gap: real,
    padding: real,
    stageWidth: real,
    circleSize: real)
  {
    /** Left edge of column `index`. */
    function ColumnX(index: nat): real {
      padding + index as real * (stageWidth + gap)
    }

    function StagePosition(index: nat): (p: Point)
      ensures p.y == stageY
      ensures p.x == padding + index as real * (stageWidth + gap)
    {
      Point(ColumnX(index), stageY)
    }

    /** Status circles are centred under their column, for every index,
        including indices past the last stage. */
    function CirclePosition(index: nat): (p: Point)
      ensures p.y == circleY
      ensures p.x == StagePosition(index).x + stageWidth / 2.0 - circleSize / 2.0
    {
      Point(ColumnX(index) + stageWidth / 2.0 - circleSize / 2.0, circleY)
    }

    /** The entities group is left-aligned with the first stage column. */
    function EntitiesPosition(): (p: Point)
      ensures p.x == StagePosition(0).x && p.y == entitiesY
    {
      Point(padding, entitiesY)
    }
  }

  function CalculateDynamicLayout(data: WorkflowData, config: LayoutConfig): (l: DynamicLayout)
    ensures l.stageSpacing >= MinimumSpacing
    ensures l.stageSpacing >= ColumnGap(|data.stages|, config)
    ensures l.stageSpacing == MinimumSpacing || l.stageSpacing == ColumnGap(|data.stages|, config)
    ensures l.stageY == StageRowY
    ensures l.circleY == l.stageY + config.stageHeight + config.verticalSpacing
    ensures l.entitiesY == l.circleY + config.circleSize + config.verticalSpacing
    ensures forall i: nat {:trigger l.StagePosition(i)} ::
      l.StagePosition(i) == Point(config.padding + i as real * (config.stageWidth + ColumnGap(|data.stages|, config)), StageRowY)
    ensures l.EntitiesPosition() == Point(config.padding, l.entitiesY)
  {
    var gap := ColumnGap(|data.stages|, config);
    var circleY := StageRowY + config.stageHeight + config.verticalSpacing;
    DynamicLayout(
      if gap > MinimumSpacing then gap else MinimumSpacing,
      StageRowY,
      circleY,
      circleY + config.circleSize + config.verticalSpacing,
      gap,
      config.padding,
      config.stageWidth,
      config.circleSize)
  }

  /** With two or more stages, the last stage's right edge lands exactly on
      the container's inner right edge. */
  lemma LastStageMeetsRightPadding(data: WorkflowData, config: LayoutConfig)
    requires |data.stages| >= 2
    ensures var l := CalculateDynamicLayout(data, config);
      l.StagePosition(|data.stages| - 1).x + config.stageWidth == config.workflowWidth - config.padding
  {
    var n := |data.stages|;
    var gap := ColumnGap(n, config);
    var free := config.workflowWidth - 2.0 * config.padding - n as real * config.stageWidth;
    assert gap * (n - 1) as real == free;
    calc {
      config.padding + (n - 1) as real * (config.stageWidth + gap) + config.stageWidth;
      config.padding + (n - 1) as real * config.stageWidth + gap * (n - 1) as real + config.stageWidth;
      config.padding + n as real * config.stageWidth + free;
    }
  }

  /** Consecutive stages are one stage width plus the raw gap apart, so two
      neighbours are disjoint exactly when the raw gap is non-negative —
      whatever the reported, clamped `stageSpacing` says. */
  lemma NeighbouringStages(data: WorkflowData, config: LayoutConfig, i: nat)
    ensures var l := CalculateDynamicLayout(data, config);
      && l.StagePosition(i + 1).x - l.StagePosition(i).x == config.stageWidth + ColumnGap(|data.stages|, config)
      && (l.StagePosition(i + 1).x >= l.StagePosition(i).x + config.stageWidth <==> ColumnGap(|data.stages|, config) >= 0.0)
  {
    var step := config.stageWidth + ColumnGap(|data.stages|, config);
    assert (i + 1) as real * step == i as real * step + step;
  }

  /** With the default sizes, four stages do not fit: the reported spacing is
      the 20-unit floor, yet the second stage starts inside the first. */
  lemma FourDefaultStagesOverlap(data: WorkflowData)
    requires |data.stages| == 4
    ensures var l := CalculateDynamicLayout(data, DefaultLayoutConfig);
      && l.stageSpacing == MinimumSpacing
      && l.StagePosition(1).x < l.StagePosition(0).x + DefaultLayoutConfig.stageWidth
  {
    assert ColumnGap(4, DefaultLayoutConfig) == -140.0 / 3.0;
  }

  /** With the default sizes, the stages fit side by side without
      overlapping exactly when there are at most three of them. */
  lemma DefaultConfigFitsThreeStages(stageCount: nat)
    ensures ColumnGap(stageCount, DefaultLayoutConfig) >= 0.0 <==> stageCount <= 3
  {
    if stageCount > 1 {
      var g := ColumnGap(stageCount, DefaultLayoutConfig);
      var d := (stageCount - 1) as real;
      assert d * g == 740.0 - 220.0 * stageCount as real;
      if g >= 0.0 {
        assert d * g >= 0.0;
      } else {
        assert d * g < 0.0;
      }
    }
  }

  /** The three rows are stacked top to bottom when the sizes are positive. */
  lemma RowsAreStacked(data: WorkflowData, config: LayoutConfig)
    requires config.Positive()
    ensures var l := CalculateDynamicLayout(data, config);
      && l.stageY + config.stageHeight < l.circleY
      && l.circleY + config.circleSize < l.entitiesY
      && l.stageY < l.circleY < l.entitiesY
  {
  }

  // ----- Positioned nodes -----

  datatype Size = Size(width: real, height: real)

  /** Stands for a callback handed in by the caller and carried in a payload. */
  datatype CallbackToken = CallbackToken(handle: nat)

  /** The payload of a node, one shape per kind of node. */
  datatype NodeData =
    | TagData(title: string)
    | ContainerData(title: string, description: string)
    | StageData(title: string, description: string, color: Option<string>)
    | StatusData(labelText: string, color: Option<string>)
    | EntitiesGroupData(title: string, entities: seq<WorkflowEntity>, entitiesExpanded: bool, onToggleEntities: CallbackToken)

  /** A positioned node handed to the renderer. `extentParent` records
      `extent: 'parent'`. */
  datatype FlowNode = FlowNode(
    id: string,
    nodeType: string,
    position: Point,
    data: NodeData,
    parentId: Option<string>,
    style: Option<Size>,
    extentParent: bool,
    draggable: bool)

  function TagNode(): (n: FlowNode)
    ensures n.id == TagId && n.position == TagPosition && n.parentId.None?
  {
    FlowNode(TagId, "pmf-tag", TagPosition, TagData("PMF"), None, None, false, true)
  }

  function ContainerNode(data: WorkflowData, config: LayoutConfig): (n: FlowNode)
    ensures n.id == data.workflow.id && n.position == ContainerPosition && n.parentId.None?
    ensures n.style == Some(Size(config.workflowWidth, config.workflowHeight))
  {
    FlowNode(data.workflow.id, "workflow", ContainerPosition,
      ContainerData(data.workflow.title, data.workflow.description), None,
      Some(Size(config.workflowWidth, config.workflowHeight)), false, true)
  }

  function StageNode(data: WorkflowData, layout: DynamicLayout, config: LayoutConfig, index: nat): (n: FlowNode)
    requires index < |data.stages|
    ensures n.id == data.stages[index].id && n.position == layout.StagePosition(index)
    ensures n.parentId == Some(data.workflow.id) && n.extentParent
  {
    var stage := data.stages[index];
    FlowNode(stage.id, "stage", layout.StagePosition(index),
      StageData(stage.title, stage.description, stage.color), Some(data.workflow.id),
      Some(Size(config.stageWidth, config.stageHeight)), true, true)
  }

  function StatusNode(data: WorkflowData, layout: DynamicLayout, index: nat): (n: FlowNode)
    requires index < |data.statusNodes|
    ensures n.id == data.statusNodes[index].id && n.position == layout.CirclePosition(index)
    ensures n.parentId == Some(data.workflow.id) && n.extentParent
  {
    var status := data.statusNodes[index];
    FlowNode(status.id, "circular", layout.CirclePosition(index),
      StatusData(status.labelText, status.color), Some(data.workflow.id), None, true, true)
  }

  function EntitiesGroupNode(data: WorkflowData, layout: DynamicLayout, entitiesExpanded: bool, onToggleEntities: CallbackToken): (n: FlowNode)
    ensures n.id == EntitiesGroupId && n.position == layout.EntitiesPosition() && n.parentId == Some(data.workflow.id)
    ensures n.data.EntitiesGroupData? && n.data.entities == data.entities && n.data.entitiesExpanded == entitiesExpanded
  {
    FlowNode(EntitiesGroupId, "entities-group", layout.EntitiesPosition(),
      EntitiesGroupData("Data Entities", data.entities, entitiesExpanded, onToggleEntities),
      Some(data.workflow.id), None, true, true)
  }

  /** The nodes of the first `count` stages, in stage order. */
  function StageNodesUpTo(data: WorkflowData, layout: DynamicLayout, config: LayoutConfig, count: nat): seq<FlowNode>
    requires count <= |data.stages|
  {
    if count == 0 then [] else StageNodesUpTo(data, layout, config, count - 1) + [StageNode(data, layout, config, count - 1)]
  }

  /** The nodes of the first `count` status markers, in input order. */
  function StatusNodesUpTo(data: WorkflowData, layout: DynamicLayout, count: nat): seq<FlowNode>
    requires count <= |data.statusNodes|
  {
    if count == 0 then [] else StatusNodesUpTo(data, layout, count - 1) + [StatusNode(data, layout, count - 1)]
  }

  /** The node list as a value: tag, container, stages, statuses, entities group. */
  function DynamicNodes(data: WorkflowData, entitiesExpanded: bool, onToggleEntities: CallbackToken, config: LayoutConfig): seq<FlowNode>
  {
    var layout := CalculateDynamicLayout(data, config);
    [TagNode(), ContainerNode(data, config)]
      + StageNodesUpTo(data, layout, config, |data.stages|)
      + StatusNodesUpTo(data, layout, |data.statusNodes|)
      + [EntitiesGroupNode(data, layout, entitiesExpanded, onToggleEntities)]
  }

  /** Builds the node list by pushing onto a local list, one loop per row. */
  method CreateDynamicNodes(data: WorkflowData, entitiesExpanded: bool, onToggleEntities: CallbackToken, config: LayoutConfig)
    returns (nodes: seq<FlowNode>)
    ensures nodes == DynamicNodes(data, entitiesExpanded, onToggleEntities, config)
  {
    var layout := CalculateDynamicLayout(data, config);
    nodes := [];
    nodes := nodes + [TagNode()];
    nodes := nodes + [ContainerNode(data, config)];
    var i := 0;
    while i < |data.stages|
      invariant 0 <= i <= |data.stages|
      invariant nodes == [TagNode(), ContainerNode(data, config)] + StageNodesUpTo(data, layout, config, i)
    {
      nodes := nodes + [StageNode(data, layout, config, i)];
      i := i + 1;
    }
    var j := 0;
    while j < |data.statusNodes|
      invariant 0 <= j <= |data.statusNodes|
      invariant nodes == [TagNode(), ContainerNode(data, config)]
        + StageNodesUpTo(data, layout, config, |data.stages|) + StatusNodesUpTo(data, layout, j)
    {
      nodes := nodes + [StatusNode(data, layout, j)];
      j := j + 1;
    }
    nodes := nodes + [EntitiesGroupNode(data, layout, entitiesExpanded, onToggleEntities)];
  }

  lemma {:induction false} StageNodesUpToAt(data: WorkflowData, layout: DynamicLayout, config: LayoutConfig, count: nat)
    requires count <= |data.stages|
    ensures |StageNodesUpTo(data, layout, config, count)| == count
    ensures forall i :: 0 <= i < count ==> StageNodesUpTo(data, layout, config, count)[i] == StageNode(data, layout, config, i)
  {
    if count > 0 {
      StageNodesUpToAt(data, layout, config, count - 1);
    }
  }

  lemma {:induction false} StatusNodesUpToAt(data: WorkflowData, layout: DynamicLayout, count: nat)
    requires count <= |data.statusNodes|
    ensures |StatusNodesUpTo(data, layout, count)| == count
    ensures forall i :: 0 <= i < count ==> StatusNodesUpTo(data, layout, count)[i] == StatusNode(data, layout, i)
  {
    if count > 0 {
      StatusNodesUpToAt(data, layout, count - 1);
    }
  }

  /** The node list around its two rows: its length, its fixed first two
      and last nodes, and where the stage and status rows start. */
  lemma DynamicNodesSplit(data: WorkflowData, entitiesExpanded: bool, onToggleEntities: CallbackToken, config: LayoutConfig)
    ensures var nodes := DynamicNodes(data, entitiesExpanded, onToggleEntities, config);
      var layout := CalculateDynamicLayout(data, config);
      var n := |data.stages|;
      && |nodes| == 3 + n + |data.statusNodes|
      && nodes[0] == TagNode()
      && nodes[1] == ContainerNode(data, config)
      && nodes[2..2 + n] == StageNodesUpTo(data, layout, config, n)
      && nodes[2 + n..|nodes| - 1] == StatusNodesUpTo(data, layout, |data.statusNodes|)
      && nodes[|nodes| - 1] == EntitiesGroupNode(data, layout, entitiesExpanded, onToggleEntities)
  {
    var layout := CalculateDynamicLayout(data, config);
    var n := |data.stages|;
    var stages := StageNodesUpTo(data, layout, config, n);
    var statuses := StatusNodesUpTo(data, layout, |data.statusNodes|);
    StageNodesUpToAt(data, layout, config, n);
    StatusNodesUpToAt(data, layout, |data.statusNodes|);
    var nodes := [TagNode(), ContainerNode(data, config)] + stages + statuses + [EntitiesGroupNode(data, layout, entitiesExpanded, onToggleEntities)];
    assert nodes[2..2 + n] == stages;
    assert nodes[2 + n..|nodes| - 1] == statuses;
  }

  lemma StageNodeAt(data: WorkflowData, entitiesExpanded: bool, onToggleEntities: CallbackToken, config: LayoutConfig, i: nat)
    requires i < |data.stages|
    ensures var nodes := DynamicNodes(data, entitiesExpanded, onToggleEntities, config);
      2 + i < |nodes| && nodes[2 + i] == StageNode(data, CalculateDynamicLayout(data, config), config, i)
  {
    var layout := CalculateDynamicLayout(data, config);
    var stages := StageNodesUpTo(data, layout, config, |data.stages|);
    var rest := StatusNodesUpTo(data, layout, |data.statusNodes|)
      + [EntitiesGroupNode(data, layout, entitiesExpanded, onToggleEntities)];
    StageNodesUpToAt(data, layout, config, |data.stages|);
    assert DynamicNodes(data, entitiesExpanded, onToggleEntities, config)
      == [TagNode(), ContainerNode(data, config)] + (stages + rest);
  }

  lemma StatusNodeAt(data: WorkflowData, entitiesExpanded: bool, onToggleEntities: CallbackToken, config: LayoutConfig, j: nat)
    requires j < |data.statusNodes|
    ensures var nodes := DynamicNodes(data, entitiesExpanded, onToggleEntities, config);
      2 + |data.stages| + j < |nodes| && nodes[2 + |data.stages| + j] == StatusNode(data, CalculateDynamicLayout(data, config), j)
  {
    var layout := CalculateDynamicLayout(data, config);
    var front := [TagNode(), ContainerNode(data, config)] + StageNodesUpTo(data, layout, config, |data.stages|);
    var statuses := StatusNodesUpTo(data, layout, |data.statusNodes|);
    StageNodesUpToAt(data, layout, config, |data.stages|);
    StatusNodesUpToAt(data, layout, |data.statusNodes|);
    assert DynamicNodes(data, entitiesExpanded, onToggleEntities, config)
      == front + (statuses + [EntitiesGroupNode(data, layout, entitiesExpanded, onToggleEntities)]);
  }

  /** Where each kind of node sits in the list: 3 + |stages| + |statusNodes|
      nodes, tag first, container second, then stages and statuses in input
      order, the entities group last — whatever `entitiesExpanded` is. */
  lemma NodeOrder(data: WorkflowData, entitiesExpanded: bool, onToggleEntities: CallbackToken, config: LayoutConfig)
    ensures var nodes := DynamicNodes(data, entitiesExpanded, onToggleEntities, config);
      && |nodes| == 3 + |data.stages| + |data.statusNodes|
      && nodes[0].id == TagId
      && nodes[1].id == data.workflow.id
      && (forall i :: 0 <= i < |data.stages| ==>
            nodes[2 + i].id == data.stages[i].id && nodes[2 + i].nodeType == "stage")
      && (forall j :: 0 <= j < |data.statusNodes| ==>
            nodes[2 + |data.stages| + j].id == data.statusNodes[j].id && nodes[2 + |data.stages| + j].nodeType == "circular")
      && nodes[|nodes| - 1].id == EntitiesGroupId
  {
    var nodes := DynamicNodes(data, entitiesExpanded, onToggleEntities, config);
    DynamicNodesSplit(data, entitiesExpanded, onToggleEntities, config);
    forall i | 0 <= i < |data.stages|
      ensures nodes[2 + i].id == data.stages[i].id && nodes[2 + i].nodeType == "stage"
    {
      StageNodeAt(data, entitiesExpanded, onToggleEntities, config, i);
    }
    forall j | 0 <= j < |data.statusNodes|
      ensures nodes[2 + |data.stages| + j].id == data.statusNodes[j].id && nodes[2 + |data.stages| + j].nodeType == "circular"
    {
      StatusNodeAt(data, entitiesExpanded, onToggleEntities, config, j);
    }
  }

  /** Stage i sits at x = padding + i·(stageWidth + raw gap), y = 70, sized
      stageWidth × stageHeight, inside the container. */
  lemma StageNodePlacement(data: WorkflowData, entitiesExpanded: bool, onToggleEntities: CallbackToken, config: LayoutConfig, i: nat)
    requires i < |data.stages|
    ensures var nodes := DynamicNodes(data, entitiesExpanded, onToggleEntities, config);
      var gap := ColumnGap(|data.stages|, config);
      && 2 + i < |nodes|
      && nodes[2 + i].id == data.stages[i].id
      && nodes[2 + i].position.x == config.padding + i as real * (config.stageWidth + gap)
      && nodes[2 + i].position.y == StageRowY
      && nodes[2 + i].parentId == Some(data.workflow.id)
      && nodes[2 + i].style == Some(Size(config.stageWidth, config.stageHeight))
  {
    var layout := CalculateDynamicLayout(data, config);
    assert layout.gap == ColumnGap(|data.stages|, config);
    assert layout.padding == config.padding && layout.stageWidth == config.stageWidth;
    StageNodeAt(data, entitiesExpanded, onToggleEntities, config, i);
  }

  /** Status j sits centred under column j on the circle row, for every j,
      even past the last stage (no clamping), inside the container. */
  lemma StatusNodePlacement(data: WorkflowData, entitiesExpanded: bool, onToggleEntities: CallbackToken, config: LayoutConfig, j: nat)
    requires j < |data.statusNodes|
    ensures var nodes := DynamicNodes(data, entitiesExpanded, onToggleEntities, config);
      var n := |data.stages|;
      var gap := ColumnGap(n, config);
      && 2 + n + j < |nodes|
      && nodes[2 + n + j].id == data.statusNodes[j].id
      && nodes[2 + n + j].position.x
           == config.padding + j as real * (config.stageWidth + gap) + config.stageWidth / 2.0 - config.circleSize / 2.0
      && nodes[2 + n + j].position.y == StageRowY + config.stageHeight + config.verticalSpacing
      && nodes[2 + n + j].parentId == Some(data.workflow.id)
  {
    var layout := CalculateDynamicLayout(data, config);
    assert layout.gap == ColumnGap(|data.stages|, config) && layout.padding == config.padding;
    assert layout.stageWidth == config.stageWidth && layout.circleSize == config.circleSize;
    StatusNodeAt(data, entitiesExpanded, onToggleEntities, config, j);
  }

  /** The tag and the container are fixed and have no parent; the entities
      group sits on the third row at the left padding and carries the
      entities and the expansion flag unchanged. */
  lemma FixedNodes(data: WorkflowData, entitiesExpanded: bool, onToggleEntities: CallbackToken, config: LayoutConfig)
    ensures var nodes := DynamicNodes(data, entitiesExpanded, onToggleEntities, config);
      var last := nodes[|nodes| - 1];
      && nodes[0].position == Point(20.0, 20.0) && nodes[0].parentId.None?
      && nodes[1].position == Point(20.0, 60.0) && nodes[1].parentId.None?
      && nodes[1].style == Some(Size(config.workflowWidth, config.workflowHeight))
      && last.position == Point(config.padding,
           StageRowY + config.stageHeight + config.verticalSpacing + config.circleSize + config.verticalSpacing)
      && last.parentId == Some(data.workflow.id)
      && last.data == EntitiesGroupData("Data Entities", data.entities, entitiesExpanded, onToggleEntities)
  {
  }

  /** The expansion flag changes nothing but the entities group's payload. */
  lemma {:induction false} ExpansionOnlyChangesGroupPayload(data: WorkflowData, onToggleEntities: CallbackToken, config: LayoutConfig)
    ensures var open := DynamicNodes(data, true, onToggleEntities, config);
      var closed := DynamicNodes(data, false, onToggleEntities, config);
      && |open| == |closed|
      && open[..|open| - 1] == closed[..|closed| - 1]
      && open[|open| - 1] == closed[|closed| - 1].(data := open[|open| - 1].data)
  {
    var layout := CalculateDynamicLayout(data, config);
    var prefix := [TagNode(), ContainerNode(data, config)]
      + StageNodesUpTo(data, layout, config, |data.stages|)
      + StatusNodesUpTo(data, layout, |data.statusNodes|);
    var open := DynamicNodes(data, true, onToggleEntities, config);
    var closed := DynamicNodes(data, false, onToggleEntities, config);
    assert open == prefix + [EntitiesGroupNode(data, layout, true, onToggleEntities)];
    assert closed == prefix + [EntitiesGroupNode(data, layout, false, onToggleEntities)];
    assert open[..|open| - 1] == prefix;
    assert closed[..|closed| - 1] == prefix;
  }
}
