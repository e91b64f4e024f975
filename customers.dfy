/** POST /customers: validation, id assignment and append of a loyal customer. */
module Customers {
  import opened Wrappers
  import opened Records

  /** The request body; a field the client left out is `None`. */
  datatype Registration = Registration(name: Option<string>, email: Option<string>, address: Option<string>)

  /** A field passes the handler's truthiness test: present and not the empty string. */
  predicate Given(field: Option<string>) { field.Some? && field.value != "" }

  predicate IsComplete(req: Registration) { Given(req.name) && Given(req.email) && Given(req.address) }

  /** The 400 answer for an incomplete request. */
  const MissingFields := HttpError(400, "Name, email, and address are required fields")

  /** The answer to a successful registration. */
  const Welcome := "You are now a loyal customer!"

  /**
   * The customer store after one request: unchanged when a field is missing,
   * otherwise one more customer at the end whose id is the old count plus one.
   */
  function Register(cs: seq<Customer>, req: Registration): (r: seq<Customer>)
    ensures !IsComplete(req) ==> r == cs
    ensures IsComplete(req) ==>
      && |r| == |cs| + 1
      && r[..|cs|] == cs
      && r[|cs|] == Customer(|cs| + 1, req.name.value, req.email.value, req.address.value)
  {
    if IsComplete(req) then cs + [Customer(|cs| + 1, req.name.value, req.email.value, req.address.value)]
    else cs
  }

  /** The customer in position i (counting from 0) has id i + 1. */
  predicate SequentialIds(cs: seq<Customer>)
  {
    forall i :: 0 <= i < |cs| ==> cs[i].id == i + 1
  }

  /** Registration keeps ids sequential. */
  lemma RegisterKeepsIdsSequential(cs: seq<Customer>, req: Registration)
    requires SequentialIds(cs)
    ensures SequentialIds(Register(cs, req))
  {
  }

  /** Sequential ids are distinct. */
  lemma SequentialIdsAreUnique(cs: seq<Customer>)
    requires SequentialIds(cs)
    ensures forall i, j :: 0 <= i < j < |cs| ==> cs[i].id != cs[j].id
  {
  }

  /** The store after a series of requests, handled one after another. */
  function RegisterAll(cs: seq<Customer>, reqs: seq<Registration>): seq<Customer>
    decreases |reqs|
  {
    if |reqs| == 0 then cs else Register(RegisterAll(cs, reqs[..|reqs| - 1]), reqs[|reqs| - 1])
  }

  /** How many of the requests are complete. */
  function CompleteCount(reqs: seq<Registration>): nat
    decreases |reqs|
  {
    if |reqs| == 0 then 0
    else CompleteCount(reqs[..|reqs| - 1]) + if IsComplete(reqs[|reqs| - 1]) then 1 else 0
  }

  /**
   * Starting from a store with sequential ids (the empty store, say), any
   * series of requests leaves the ids sequential and adds exactly one
   * customer per complete request.
   */
  lemma {:induction false} RegisterAllKeepsIdsSequential(cs: seq<Customer>, reqs: seq<Registration>)
    requires SequentialIds(cs)
    ensures SequentialIds(RegisterAll(cs, reqs))
    ensures |RegisterAll(cs, reqs)| == |cs| + CompleteCount(reqs)
    ensures forall i, j :: 0 <= i < j < |RegisterAll(cs, reqs)| ==>
      RegisterAll(cs, reqs)[i].id != RegisterAll(cs, reqs)[j].id
    decreases |reqs|
  {
    if |reqs| != 0 {
      RegisterAllKeepsIdsSequential(cs, reqs[..|reqs| - 1]);
      RegisterKeepsIdsSequential(RegisterAll(cs, reqs[..|reqs| - 1]), reqs[|reqs| - 1]);
    }
    SequentialIdsAreUnique(RegisterAll(cs, reqs));
  }
}
