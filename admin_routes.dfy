/**
  The admin back-office routes modelled here (server/src/routes/admin.ts): the order
  and customer listings with their paging, and the user registry's create and delete
  guards. The registry is a class holding the stored users by id.
 */
module AdminRoutes {
  import opened Wrappers
  import opened Accounts
  import Pagination

  datatype StoredUser = StoredUser(name: string, email: string, password: string, role: Role, isEmailVerified: bool)

  /** What the create response carries: the stored user without its password. */
  datatype UserView = UserView(id: UserId, name: string, email: string, role: Role, isEmailVerified: bool)

  /** `user.toObject()` with `password` deleted. */
  function ToView(id: UserId, u: StoredUser): (r: UserView)
    ensures r.id == id && r.name == u.name && r.email == u.email
    ensures r.role == u.role && r.isEmailVerified == u.isEmailVerified
  {
    UserView(id, u.name, u.email, u.role, u.isEmailVerified)
  }

  /** The response cannot reveal the password: users differing only in it give the same response. */
  lemma ViewIgnoresPassword(id: UserId, u: StoredUser, other: string)
    ensures ToView(id, u) == ToView(id, u.(password := other))
  {
  }

  /** Some stored user has this email. */
  predicate EmailTaken(users: map<UserId, StoredUser>, email: string)
  {
    exists id :: id in users && users[id].email == email
  }

  /** No two stored users share an email. */
  predicate EmailsUnique(users: map<UserId, StoredUser>)
  {
    forall a, b :: a in users && b in users && a != b ==> users[a].email != users[b].email
  }

  /** Storing a user under a new id with an email nobody has keeps emails unique. */
  lemma InsertKeepsEmailsUnique(users: map<UserId, StoredUser>, id: UserId, u: StoredUser)
    requires EmailsUnique(users) && id !in users && !EmailTaken(users, u.email)
    ensures EmailsUnique(users[id := u])
  {
    var r := users[id := u];
    forall a, b | a in r && b in r && a != b
      ensures r[a].email != r[b].email
    {
      if a == id {
        assert users[b].email != u.email;
      } else if b == id {
        assert users[a].email != u.email;
      }
    }
  }

  /** Removing a user keeps emails unique. */
  lemma RemoveKeepsEmailsUnique(users: map<UserId, StoredUser>, id: UserId)
    requires EmailsUnique(users)
    ensures EmailsUnique(users - {id})
  {
  }

  /** The new user `POST /users` stores: role defaults to customer and verification to false. */
  function NewUser(name: string, email: string, password: string, role: Option<Role>, isEmailVerified: bool): (r: StoredUser)
    ensures role.None? ==> r.role == Customer
    ensures role.Some? ==> r.role == role.value
    ensures r.isEmailVerified == isEmailVerified && r.email == email
  {
    StoredUser(name, email, password, role.GetOr(Customer), isEmailVerified)
  }

  /** The stored users, changed in place by create and delete. */
  class UserRegistry {
    var users: map<UserId, StoredUser>

    constructor (users: map<UserId, StoredUser>)
      ensures this.users == users
    {
      this.users := users;
    }

    /**
      `POST /api/admin/users`: 400 without change when the email is taken; otherwise the
      user is stored under the fresh id the database assigns and returned without its
      password (201).
     */
    method CreateUser(newId: UserId, name: string, email: string, password: string, role: Option<Role>,
                      isEmailVerified: bool)
      returns (code: int, view: Option<UserView>)
      requires newId !in users
      modifies this
      ensures EmailTaken(old(users), email) ==> code == 400 && view == None && users == old(users)
      ensures !EmailTaken(old(users), email) ==>
        code == 201 && users == old(users)[newId := NewUser(name, email, password, role, isEmailVerified)] &&
        view == Some(ToView(newId, users[newId]))
      ensures old(EmailsUnique(users)) ==> EmailsUnique(users)
    {
      if exists id :: id in users && users[id].email == email {
        return 400, None;
      }
      var u := NewUser(name, email, password, role, isEmailVerified);
      if EmailsUnique(users) {
        InsertKeepsEmailsUnique(users, newId, u);
      }
      users := users[newId := u];
      return 201, Some(ToView(newId, u));
    }

    /** `DELETE /api/admin/users/:id`: 404 for an unknown id, 400 for the caller's own id, otherwise exactly that user goes. */
    method DeleteUser(id: UserId, caller: UserId) returns (code: int)
      modifies this
      ensures id !in old(users) ==> code == 404 && users == old(users)
      ensures id in old(users) && id == caller ==> code == 400 && users == old(users)
      ensures id in old(users) && id != caller ==> code == 200 && users == old(users) - {id}
      ensures caller in old(users) ==> caller in users
    {
      if id !in users {
        return 404;
      }
      if id == caller {
        return 400;
      }
      users := users - {id};
      return 200;
    }
  }

  /** What the listings need of a stored user. */
  datatype UserRow = UserRow(id: UserId, role: Role)

  /** The user listing's query `{ role: 'customer' }`: the customers, in order. */
  function Customers(rows: seq<UserRow>): (r: seq<UserRow>)
    ensures forall i :: 0 <= i < |r| ==> r[i].role == Customer
    ensures forall x :: x in rows && x.role == Customer ==> x in r
    ensures forall x :: x in r ==> x in rows
  {
    if |rows| == 0 then []
    else if rows[0].role == Customer then [rows[0]] + Customers(rows[1..])
    else Customers(rows[1..])
  }

  /** `GET /api/admin/users`: customers only, paged with a default limit of 20; admins are never listed. */
  function ListUsers(rows: seq<UserRow>, pageQuery: Option<int>, limitQuery: Option<int>)
    : (r: Option<(seq<UserRow>, Pagination.PageInfo)>)
    ensures Pagination.OrDefault(limitQuery, 20) > 0 ==> (r.None? <==> Pagination.OrDefault(pageQuery, 1) < 1)
    ensures r.Some? ==> forall i :: 0 <= i < |r.value.0| ==> r.value.0[i].role == Customer
    ensures r.Some? ==> r.value.1.total == |Customers(rows)|
    ensures r == Pagination.Paginate(Customers(rows), pageQuery, limitQuery, 20)
  {
    var customers := Customers(rows);
    var r := Pagination.Paginate(customers, pageQuery, limitQuery, 20);
    assert r.Some? ==> forall i :: 0 <= i < |r.value.0| ==> r.value.0[i] in customers;
    r
  }

  /** What the order listing needs of a stored order: its status name. */
  datatype AdminOrderRow = AdminOrderRow(status: string)

  function WithStatus(rows: seq<AdminOrderRow>, status: string): (r: seq<AdminOrderRow>)
    ensures status != "" ==> forall i :: 0 <= i < |r| ==> r[i].status == status
    ensures status == "" ==> r == rows
    ensures forall x :: x in rows && x.status == status ==> x in r
    ensures forall x :: x in r ==> x in rows
  {
    if status == "" || |rows| == 0 then rows
    else if rows[0].status == status then [rows[0]] + WithStatus(rows[1..], status)
    else WithStatus(rows[1..], status)
  }

  /** `GET /api/admin/orders`: all orders, or those with the given status, paged with a default limit of 20. */
  function ListAllOrders(rows: seq<AdminOrderRow>, status: string, pageQuery: Option<int>, limitQuery: Option<int>)
    : (r: Option<(seq<AdminOrderRow>, Pagination.PageInfo)>)
    ensures Pagination.OrDefault(limitQuery, 20) > 0 ==> (r.None? <==> Pagination.OrDefault(pageQuery, 1) < 1)
    ensures r.Some? && status != "" ==> forall i :: 0 <= i < |r.value.0| ==> r.value.0[i].status == status
    ensures r.Some? && status == "" ==> r.value.1.total == |rows|
    ensures r.Some? ==> r.value.1.total == |WithStatus(rows, status)|
    ensures r == Pagination.Paginate(WithStatus(rows, status), pageQuery, limitQuery, 20)
  {
    var matching := WithStatus(rows, status);
    var r := Pagination.Paginate(matching, pageQuery, limitQuery, 20);
    assert r.Some? ==> forall i :: 0 <= i < |r.value.0| ==> r.value.0[i] in matching;
    r
  }
}
