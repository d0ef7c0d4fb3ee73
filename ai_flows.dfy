/**
 * The four prompt flows (architecture summary, file documentation, question
 * answering, similar-repository suggestion) are calls to a hosted language
 * model. The model treats each call as an oracle: it returns an output or throws.
 */
module AiFlows {

  datatype FlowOutcome<+T> = Returned(output: T) | Threw
}
