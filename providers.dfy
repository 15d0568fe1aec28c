/** The delivery back-ends (src/services/EmailProvider.ts). A provider is
    called with a recipient, a subject and a body, and either returns a
    boolean (true: the message went out) or throws. */
module Providers {

  datatype Message = Message(recipient: string, subject: string, body: string)

  /** What one call on a provider produces. */
  datatype Outcome =
    | Returned(success: bool)
    | Threw(error: string)

  /** The two constant mocks of the repository, and any other implementation
      of the interface. `respond(m, k)` is what such a provider, at its
      position in the provider list, yields for message `m` when its attempt
      counter is `k` within one dispatch. An object listed twice is two
      independent entries here. */
  datatype Provider =
    | MockEmailProvider1
    | MockEmailProvider2
    | Other(respond: (Message, nat) -> Outcome)

  /** One call on the list entry `p` with message `m`, made when its attempt
      counter is `call`. */
  function Send(p: Provider, m: Message, call: nat): (o: Outcome)
    ensures !p.Other? ==> o.Returned?
    ensures !p.Other? ==> (Delivered(o) <==> p.MockEmailProvider2?)
    ensures p.Other? ==> o == p.respond(m, call)
  {
    match p
    case MockEmailProvider1 => Returned(false)
    case MockEmailProvider2 => Returned(true)
    case Other(respond) => respond(m, call)
  }

  /** Only a returned `true` is a delivery; a returned `false` and a thrown
      error both are failed attempts. */
  predicate Delivered(o: Outcome)
    ensures Delivered(o) <==> o.Returned? && o.success
    ensures o.Threw? ==> !Delivered(o)
  {
    o == Returned(true)
  }

  /** The first mock never delivers, whatever it is sent. */
  lemma Mock1NeverDelivers(m: Message, call: nat)
    ensures Send(MockEmailProvider1, m, call) == Returned(false)
    ensures !Delivered(Send(MockEmailProvider1, m, call))
  {
  }

  /** The second mock always delivers, whatever it is sent. */
  lemma Mock2AlwaysDelivers(m: Message, call: nat)
    ensures Send(MockEmailProvider2, m, call) == Returned(true)
    ensures Delivered(Send(MockEmailProvider2, m, call))
  {
  }
}
