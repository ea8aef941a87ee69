/** The chat messages exchanged with the model, and the shape of a review conversation. */
module Chat {

  datatype Role = System | User | Assistant

  /** One `{"role": ..., "content": ...}` entry of the `messages` list. */
  datatype Message = Message(role: Role, content: string)

  function Roles(c: seq<Message>): (rs: seq<Role>)
    ensures |rs| == |c|
    ensures forall i :: 0 <= i < |c| ==> rs[i] == c[i].role
  {
    if c == [] then [] else [c[0].role] + Roles(c[1..])
  }

  /** Roles of the four seed messages of a review. */
  const SeedRoles: seq<Role> := [System, User, User, User]

  /** A review conversation: the four seed messages and the review itself,
      followed by zero or more (user question, assistant reply) pairs. */
  predicate WellFormed(c: seq<Message>) {
    && |c| >= 5
    && |c| % 2 == 1
    && Roles(c[..5]) == SeedRoles + [Assistant]
    && forall i :: 5 <= i < |c| ==> c[i].role == (if i % 2 == 1 then User else Assistant)
  }
}
