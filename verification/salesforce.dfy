/**
 * What the pipeline sees of the Salesforce client (`update_account`): the
 * update is accepted, refused (the call returns False), or the call raises.
 */
module Salesforce {
  datatype Reply = Updated | NotUpdated | UpdateRaised(message: string)
}
