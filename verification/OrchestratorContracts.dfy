/** Events, records and modes that the orchestrator shares with its consumers. */
module OrchestratorContracts {
  import opened Ordering
  import opened Regimes
  import opened HysteresisRules

  datatype EngineMode = Truth | Hysteresis

  datatype CutKind = TimerCut | BoundaryCut

  datatype EventType = EngineRunStarted | EngineRunCompleted | EngineRunFailed | HysteresisStatePublished

  datatype Payload =
    | NoPayload
    | CompletedPayload(output: RegimeOutput)
    | FailedPayload(errorKind: string, errorDetail: string)
    | StatePayload(state: HysteresisState)

  datatype OrchestratorEvent = OrchestratorEvent(
    eventType: EventType,
    runId: string,
    symbol: string,
    timestamp: int,
    cutStart: int,
    cutEnd: int,
    cutKind: CutKind,
    mode: Option<EngineMode>,
    attempt: Option<int>,
    counts: Option<map<string, int>>,
    payload: Payload)
}
