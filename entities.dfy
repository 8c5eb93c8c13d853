/** The records a mailing refers to (Client and Message in mailings/models.py).
    Owners are user ids; None is a record without owner. */
module Entities {
  import opened Wrappers

  datatype Client = Client(email: string, fullName: string, comment: string, owner: Option<nat>)

  datatype Message = Message(subject: string, body: string, owner: Option<nat>)
}
