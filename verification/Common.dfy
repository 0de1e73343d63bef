/** Option values and the identifiers shared by every part of the model. */
module Common {

  datatype Option<+T> = None | Some(value: T)

  type UserId = nat
  type Account = nat
  type ClientId = nat
  type CmdId = nat
  type Ordno = nat
  type Day = nat

  datatype Mode = Sim | Real
}
