/** The five native transactions of a funded receiving attempt. */
module ReceivingKind {
  datatype Kind = Publication | Preparation | Registration | Observation | Finalization
}
