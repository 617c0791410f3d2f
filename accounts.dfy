/**
  The user identity every route sees through its authentication middleware: an id
  and a role. The user document itself (its schema, password hashing and token
  handling) is not part of this model.
 */
module Accounts {

  type UserId = nat

  datatype Role = Customer | Admin
}
