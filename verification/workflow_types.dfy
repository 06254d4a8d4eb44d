/** The workflow description consumed by the diagram engine
    (src/components/workflow/types.ts). */
module WorkflowTypes {
  import opened Wrappers

  /** A point in diagram coordinates. */
  datatype Point = Point(x: real, y: real)

  /** A pipeline step, drawn as a rectangle in the top row. */
  datatype WorkflowStage = WorkflowStage(id: string, title: string, description: string, color: Option<string>)

  /** A circular status marker; `connectedToStage` optionally names the stage it belongs to. */
  datatype WorkflowStatusNode = WorkflowStatusNode(
    id: string,
    labelText: string,  // `label` in the source; `label` is a Dafny keyword
    color: Option<string>,
    connectedToStage: Option<string>,
    connectedToEntities: Option<seq<string>>)

  /** A data object shown inside the collapsible entities group. */
  datatype WorkflowEntity = WorkflowEntity(id: string, title: string, color: Option<string>)

  /** Identity and display metadata of the workflow container. */
  datatype WorkflowInfo = WorkflowInfo(id: string, title: string, description: string)

  datatype WorkflowData = WorkflowData(
    workflow: WorkflowInfo,
    stages: seq<WorkflowStage>,
    statusNodes: seq<WorkflowStatusNode>,
    entities: seq<WorkflowEntity>)

  /** Sizing of the diagram; every dimension is meant to be positive. */
  datatype LayoutConfig = LayoutConfig(
    workflowWidth: real,
    workflowHeight: real,
    stageWidth: real,
    stageHeight: real,
    circleSize: real,
    padding: real,
    verticalSpacing: real)
  {
    predicate Positive() {
      && workflowWidth > 0.0 && workflowHeight > 0.0
      && stageWidth > 0.0 && stageHeight > 0.0
      && circleSize > 0.0 && padding > 0.0 && verticalSpacing > 0.0
    }
  }
}
