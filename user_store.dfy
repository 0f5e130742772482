/** `UserRepository`: the user collection. Users get consecutive ids and
    are kept in id order, so `findOne({ email })` is the first user with that
    email. */
module UserStore {
  import opened Common
  import opened AuthModel

  /** The position of the first user with `email` at or after `from`. */
  function FirstWithEmail(users: seq<User>, email: string, from: nat): (r: Option<nat>)
    decreases |users| - from
    ensures r.Some? ==> from <= r.value < |users| && users[r.value].email == email
    ensures r.Some? ==> forall i :: from <= i < r.value ==> users[i].email != email
    ensures r.None? ==> forall i :: from <= i < |users| ==> users[i].email != email
  {
    if from >= |users| then None
    else if users[from].email == email then Some(from)
    else FirstWithEmail(users, email, from + 1)
  }

  /** No two users share an email. */
  predicate UniqueEmails(users: seq<User>)
  {
    forall i, j :: 0 <= i < j < |users| ==> users[i].email != users[j].email
  }

  class UserRepository {
    var users: seq<User>

    /** Each user's id is its position. */
    ghost predicate Valid()
      reads this
    {
      forall i :: 0 <= i < |users| ==> users[i].id == i
    }

    constructor ()
      ensures Valid() && users == []
    {
      users := [];
    }

    /** `findByEmail`: a user with that email, if there is one. */
    function FindByEmail(email: string): (r: Option<User>)
      reads this
      requires Valid()
      ensures r.Some? <==> exists i :: 0 <= i < |users| && users[i].email == email
      ensures r.Some? ==> r.value in users && r.value.email == email
      ensures r.Some? && UniqueEmails(users) ==> forall u :: u in users && u.email == email ==> u == r.value
    {
      match FirstWithEmail(users, email, 0)
      case None => None
      case Some(i) => Some(users[i])
    }

    /** `findById`. */
    function FindById(id: UserId): (r: Option<User>)
      reads this
      requires Valid()
      ensures r.Some? <==> exists u :: u in users && u.id == id
      ensures r.Some? ==> r.value in users && r.value.id == id
    {
      if id < |users| then Some(users[id]) else None
    }

    /** `create`: stores the user under the next id. */
    method Create(firstName: string, lastName: string, email: string, password: string) returns (user: User)
      requires Valid()
      modifies this
      ensures Valid()
      ensures user == User(|old(users)|, firstName, lastName, email, password)
      ensures users == old(users) + [user]
    {
      user := User(|users|, firstName, lastName, email, password);
      users := users + [user];
    }
  }
}
