/** The records the realtime layer exchanges: the rendering parameters, the shared
    visual state and the partial update a client submits (src/lib/socketService.ts:5-19). */
module VisualData {
  import opened Wrappers

  /** An instant chosen by the caller (the source reads `new Date()`); opaque to the model. */
  type Timestamp = int

  datatype VisualParameters = VisualParameters(
    speed: int,
    intensity: int,
    colorScheme: string,
    effectIds: seq<string>)

  datatype VisualState = VisualState(
    activeTheme: string,
    parameters: VisualParameters,
    activeUsers: int,
    lastUpdated: Timestamp)

  /** `Partial<VisualState>`: each top-level field is either carried or absent. */
  datatype PartialVisualState = PartialVisualState(
    activeTheme: Option<string>,
    parameters: Option<VisualParameters>,
    activeUsers: Option<int>,
    lastUpdated: Option<Timestamp>)

  /** The partial that carries no field at all. */
  const EmptyPartial: PartialVisualState := PartialVisualState(None, None, None, None)
}
