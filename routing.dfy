/** The routing table of the current handler (`_run_rag_pipeline`): from the
    validated label and the stored `latest_decision` to the retrieval to await,
    whether the conversation history reaches the answerer, and the label persisted
    with the two saved records. */
module Routing {
  import opened Types
  import opened Labels

  /** Which search result the answer is built on: none (empty context), a search
      on the user's query, or a search on the condensed sub-query. */
  datatype Retrieval = NoRetrieval | OnQuery(params: SearchParams) | OnCondensed(params: SearchParams)

  datatype Plan = Plan(retrieval: Retrieval, keepHistory: bool, route: Route)

  /** The search parameters of the product, service and "MORE" retrievals. */
  const ProductSearch := SearchParams(7, 0, false)
  const ServiceSearch := SearchParams(3, 0, true)
  const MoreSearch := SearchParams(7, 7, false)

  function PlanRoute(decision: Route, latest: Option<string>): (p: Plan)
    // retrieval happens unless the decision is RESET or OFF-TOPIC, or a continuation
    // follows an off-topic turn
    ensures p.retrieval.NoRetrieval? <==>
              decision == Reset || decision == OffTopic || (decision == ContinueConversation && latest == Some("OFF-TOPIC"))
    ensures p.retrieval.OnCondensed? <==> decision == ContinueConversation && latest != Some("OFF-TOPIC")
    // the history is withheld exactly on the RESET and OFF-TOPIC labels
    ensures !p.keepHistory <==> decision == Reset || decision == OffTopic
    // every label other than a continuation is persisted as it is, MORE and RESET
    // included; a continuation is never persisted as such
    ensures decision != ContinueConversation ==> p.route == decision
    ensures p.route != ContinueConversation
    // a continuation resolves from the stored decision; a missing one counts as a product turn
    ensures decision == ContinueConversation ==>
              && (p.route == OffTopic <==> latest == Some("OFF-TOPIC"))
              && (p.route == InsuranceService <==> latest == Some("INSURANCE_SERVICE"))
              && (p.route == InsuranceProduct <==> latest != Some("OFF-TOPIC") && latest != Some("INSURANCE_SERVICE"))
    // the search scope always agrees with the persisted decision
    ensures !p.retrieval.NoRetrieval? ==>
              && (p.retrieval.params.service <==> p.route == InsuranceService)
              && p.retrieval.params.top == (if p.retrieval.params.service then 3 else 7)
              && p.retrieval.params.skip == (if p.route == More then 7 else 0)
  {
    match decision
    case InsuranceService => Plan(OnQuery(ServiceSearch), true, InsuranceService)
    case InsuranceProduct => Plan(OnQuery(ProductSearch), true, InsuranceProduct)
    case ContinueConversation =>
      if latest != Some("OFF-TOPIC") then
        var service := latest == Some("INSURANCE_SERVICE");
        Plan(OnCondensed(SearchParams(if service then 3 else 7, 0, service)), true,
             if service then InsuranceService else InsuranceProduct)
      else
        Plan(NoRetrieval, true, OffTopic)
    case More => Plan(OnQuery(MoreSearch), true, More)
    case _ => Plan(NoRetrieval, false, decision)
  }
}
