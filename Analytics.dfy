/**
  The Google Analytics executor: the event is not sent from the server but
  handed to the client as one action, its options with variables
  substituted.
 */
module Analytics {
  import opened Types

  /** How the block's options are parsed: values typed, empty strings dropped. */
  const AnalyticsParseOptions: DeepParseOptions := DeepParseOptions(true, true)

  /**
    `executeGoogleAnalyticsBlock`: without a result (a preview without
    storage) only the block's edge is returned; otherwise the edge and one
    `googleAnalytics` action. Never logs, never a new session.
   */
  function ExecuteGoogleAnalyticsBlock(c: Collaborators, state: SessionState, block: Block): (r: ExecResponse)
    requires block.kind.Integration? && block.kind.integration.AnalyticsIntegration?
    ensures r.outgoingEdgeId == block.outgoingEdgeId
    ensures r.logs.None? && r.newSessionState.None?
    ensures state.result.None? <==> r.clientSideActions.None?
    ensures r.clientSideActions.Some? ==>
      |r.clientSideActions.value| == 1 && r.clientSideActions.value[0].kind.GoogleAnalytics? &&
      r.clientSideActions.value[0].kind.event ==
        c.deepParseAnalytics(state.typebot.variables, block.kind.integration.analyticsOptions, DeepParseOptions(true, true))
  {
    if state.result.None? then ExecResponse(block.outgoingEdgeId, None, None, None)
    else
      var googleAnalytics := c.deepParseAnalytics(state.typebot.variables, block.kind.integration.analyticsOptions,
                                                  AnalyticsParseOptions);
      ExecResponse(block.outgoingEdgeId, None, None, Some([Action(GoogleAnalytics(googleAnalytics), None)]))
  }
}
