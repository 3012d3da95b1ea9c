/**
 * The authorisation array that a DPD login leaves behind, reduced to the
 * entries the shipment builder and the status lookup read: whether the
 * staging services are used, the customer number, and the sending depot
 * carried by the login token. The login call itself is not part of this
 * model.
 */
module DpdAuthorisation {
  import opened PhpValues

  datatype Authorisation = Authorisation(staging: bool, customerNumber: Value, depot: Value)
}
