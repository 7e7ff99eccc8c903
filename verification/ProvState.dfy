/** The states of the provisioning manager (wifi_prov_mgr_state_t). */
module ProvStates {

  datatype Prov = Idle | Starting | Started | CredRecv | Failed | Success | Stopping

  /** The service runs and is not being stopped. */
  predicate Serving(p: Prov)
  {
    p in {Started, CredRecv, Failed, Success}
  }

  /** CRED_RECV or later in the order of declaration, which is what the code compares. */
  predicate Received(p: Prov)
  {
    p in {CredRecv, Failed, Success, Stopping}
  }
}
