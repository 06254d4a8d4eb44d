/** The selection state of the single-view screens
    (src/components/SingleView/context/SelectionContext.tsx and the
    records in src/components/SingleView/types.ts). Each updater is a
    transition from the previous state to the next. */
module SelectionContext {
  import opened Wrappers

  datatype SelectedType = Workflow | Entity

  datatype ViewCustomizations = ViewCustomizations(expandAllEntities: bool, showLegend: bool, showMiniMap: bool)

  /** `Partial<ViewCustomizations>`: an absent field is `None`. */
  datatype PartialCustomizations = PartialCustomizations(
    expandAllEntities: Option<bool>,
    showLegend: Option<bool>,
    showMiniMap: Option<bool>)

  /** `null` is `None`. */
  datatype SelectionState = SelectionState(
    selectedType: Option<SelectedType>,
    selectedId: Option<string>,
    customizations: ViewCustomizations)

  const DefaultCustomizations := ViewCustomizations(true, true, true)
  const NoCustomizations := PartialCustomizations(None, None, None)
  const MissingProviderMessage := "useSelection must be used within a SelectionProvider"

  /** The state the provider starts in: nothing selected, every view
      option on. */
  function DefaultSelection(): (s: SelectionState)
    ensures s.selectedType.None? && s.selectedId.None?
    ensures s.customizations.expandAllEntities && s.customizations.showLegend && s.customizations.showMiniMap
  {
    SelectionState(None, None, DefaultCustomizations)
  }

  function UpdateSelection(prev: SelectionState, selectedType: SelectedType, id: string): (next: SelectionState)
    ensures next.selectedType == Some(selectedType) && next.selectedId == Some(id)
    ensures next.customizations == prev.customizations
  {
    prev.(selectedType := Some(selectedType), selectedId := Some(id))
  }

  /** `{ ...current, ...partial }`: the fields present in `partial` win. */
  function MergeCustomizations(current: ViewCustomizations, partial: PartialCustomizations): (merged: ViewCustomizations)
    ensures partial.expandAllEntities.Some? ==> merged.expandAllEntities == partial.expandAllEntities.value
    ensures partial.expandAllEntities.None? ==> merged.expandAllEntities == current.expandAllEntities
    ensures partial.showLegend.Some? ==> merged.showLegend == partial.showLegend.value
    ensures partial.showLegend.None? ==> merged.showLegend == current.showLegend
    ensures partial.showMiniMap.Some? ==> merged.showMiniMap == partial.showMiniMap.value
    ensures partial.showMiniMap.None? ==> merged.showMiniMap == current.showMiniMap
  {
    ViewCustomizations(
      partial.expandAllEntities.GetOr(current.expandAllEntities),
      partial.showLegend.GetOr(current.showLegend),
      partial.showMiniMap.GetOr(current.showMiniMap))
  }

  function UpdateCustomizations(prev: SelectionState, partial: PartialCustomizations): (next: SelectionState)
    ensures next.selectedType == prev.selectedType && next.selectedId == prev.selectedId
    ensures next.customizations == MergeCustomizations(prev.customizations, partial)
  {
    prev.(customizations := MergeCustomizations(prev.customizations, partial))
  }

  function ClearSelection(prev: SelectionState): (next: SelectionState)
    ensures next.selectedType.None? && next.selectedId.None?
    ensures next.customizations == ViewCustomizations(true, true, true)
  {
    DefaultSelection()
  }

  /** Reading the context: fails exactly when no provider supplies a value. */
  function UseSelection(provided: Option<SelectionState>): (r: Result<SelectionState, string>)
    ensures r.Failure? <==> provided.None?
    ensures r.Success? ==> r.value == provided.value
    ensures r.Failure? ==> r.error == MissingProviderMessage
  {
    match provided
    case None => Failure(MissingProviderMessage)
    case Some(state) => Success(state)
  }

  /** Selecting the same thing twice is selecting it once. */
  lemma UpdateSelectionIdempotent(s: SelectionState, selectedType: SelectedType, id: string)
    ensures UpdateSelection(UpdateSelection(s, selectedType, id), selectedType, id) == UpdateSelection(s, selectedType, id)
  {
  }

  /** An empty partial changes nothing. */
  lemma EmptyCustomizationIsIdentity(s: SelectionState)
    ensures UpdateCustomizations(s, NoCustomizations) == s
  {
  }

  /** Applying `p` then `q` is applying their merge, where `q`'s fields win. */
  lemma CustomizationsCompose(s: SelectionState, p: PartialCustomizations, q: PartialCustomizations)
    ensures var both := PartialCustomizations(
        if q.expandAllEntities.Some? then q.expandAllEntities else p.expandAllEntities,
        if q.showLegend.Some? then q.showLegend else p.showLegend,
        if q.showMiniMap.Some? then q.showMiniMap else p.showMiniMap);
      UpdateCustomizations(UpdateCustomizations(s, p), q) == UpdateCustomizations(s, both)
  {
  }

  /** Clearing returns to the initial state from any state. */
  lemma ClearRestoresDefault(s: SelectionState)
    ensures ClearSelection(s) == DefaultSelection()
  {
  }
}
