/**
  The customer list of the admin back office (client/src/pages/admin/Users.tsx): the
  pager under the table, the query it sends, and the user dialog. Pages hold 10 users
  and the page count is the server's `pages`.
 */
module AdminUsers {
  import opened Wrappers
  import opened Accounts
  import Pagination
  import AdminRoutes

  const PageSize: int := 10

  /** `search: searchTerm || undefined`: an empty search box sends no search parameter. */
  function SearchParam(searchTerm: string): (r: Option<string>)
    ensures r.None? <==> searchTerm == ""
    ensures r.Some? ==> r.value == searchTerm
  {
    if searchTerm == "" then None else Some(searchTerm)
  }

  /** The pager is shown only when there is more than one page. */
  predicate ShowsPager(pages: int)
  {
    pages > 1
  }

  /** With the server's page count, the pager appears exactly when there are more than 10 customers. */
  lemma PagerIffMoreThanAPage(total: nat)
    ensures ShowsPager(Pagination.PageCount(total, PageSize)) <==> total > PageSize
  {
    Pagination.PageCountCovers(total, PageSize);
  }

  /** "Showing start to end of total": `(page - 1) * 10 + 1` ... */
  function RangeStart(page: int): (r: int)
    ensures r == Pagination.Skip(page, PageSize) + 1
  {
    (page - 1) * PageSize + 1
  }

  /** ... `Math.min(page * 10, total)`. */
  function RangeEnd(page: int, total: int): (r: int)
    ensures r <= total && r <= page * PageSize
    ensures r == total || r == page * PageSize
  {
    if page * PageSize < total then page * PageSize else total
  }

  /**
    On every page the pager can show, the range is well formed: it starts at 1 or
    later, does not end before it starts or after the last customer, and covers at
    most 10 users.
   */
  lemma RangeWithinTotal(page: int, total: nat)
    requires 1 <= page <= Pagination.PageCount(total, PageSize)
    ensures 1 <= RangeStart(page) <= RangeEnd(page, total) <= total
    ensures RangeEnd(page, total) - RangeStart(page) + 1 <= PageSize
  {
    Pagination.PageCountCovers(total, PageSize);
    var pages := Pagination.PageCount(total, PageSize);
    assert (page - 1) * PageSize <= (pages - 1) * PageSize;
  }

  /** Consecutive pages show adjacent ranges: nothing is skipped or shown twice. */
  lemma RangesAdjacent(page: int, total: nat)
    requires 1 <= page < Pagination.PageCount(total, PageSize)
    ensures RangeEnd(page, total) + 1 == RangeStart(page + 1)
  {
    Pagination.PageCountCovers(total, PageSize);
    var pages := Pagination.PageCount(total, PageSize);
    assert page * PageSize <= (pages - 1) * PageSize;
  }

  /** The "previous" button is disabled on the first page. */
  predicate PrevDisabled(page: int)
  {
    page == 1
  }

  /** The "next" button is disabled on the last page. */
  predicate NextDisabled(page: int, pages: int)
  {
    page == pages
  }

  /** From any page in range, the enabled buttons lead to a page in range. */
  lemma ButtonsStayInRange(page: int, pages: int)
    requires 1 <= page <= pages
    ensures !PrevDisabled(page) ==> 1 <= page - 1 <= pages
    ensures !NextDisabled(page, pages) ==> 1 <= page + 1 <= pages
    ensures PrevDisabled(page) && NextDisabled(page, pages) ==> pages == 1
  {
  }

  /** The dialog's fields. */
  datatype UserForm = UserForm(name: string, email: string, password: string, role: Role, isEmailVerified: bool)

  /** The blank dialog: a verified customer. */
  const BlankForm: UserForm := UserForm("", "", "", Customer, true)

  /** A row of the table. */
  datatype ListedUser = ListedUser(id: UserId, name: string, email: string, role: Role, isEmailVerified: bool)

  /**
    `handleOpenModal`: editing a row pre-fills its name, email, role and verification
    but never its password; a new user starts blank.
   */
  function OpenModal(user: Option<ListedUser>): (r: (Option<UserId>, UserForm))
    ensures user.None? ==> r == (None, BlankForm)
    ensures user.Some? ==> r.0 == Some(user.value.id)
    ensures user.Some? ==> (r.1.name == user.value.name && r.1.email == user.value.email &&
                            r.1.role == user.value.role && r.1.isEmailVerified == user.value.isEmailVerified)
    ensures r.1.password == ""
  {
    match user
    case None => (None, BlankForm)
    case Some(u) => (Some(u.id), UserForm(u.name, u.email, "", u.role, u.isEmailVerified))
  }

  /** `handleCloseModal`: editing nothing, the blank form. */
  function CloseModal(): (r: (Option<UserId>, UserForm))
    ensures r.0.None? && r.1 == BlankForm && r.1.password == ""
  {
    (None, BlankForm)
  }

  /** What a submit sends: the create-user request, whatever is being edited. */
  datatype CreateRequest = CreateRequest(name: string, email: string, password: string, role: Role, isEmailVerified: bool)

  function Submit(editing: Option<UserId>, form: UserForm): (r: CreateRequest)
    ensures r.name == form.name && r.email == form.email && r.password == form.password
    ensures r.role == form.role && r.isEmailVerified == form.isEmailVerified
  {
    CreateRequest(form.name, form.email, form.password, form.role, form.isEmailVerified)
  }

  /** Whether a user is being edited makes no difference to what is sent. */
  lemma SubmitIgnoresEditing(editing: Option<UserId>, form: UserForm)
    ensures Submit(editing, form) == Submit(None, form)
  {
  }

  /**
    Editing a stored user and submitting without changing the email asks the server to
    create a second user with a taken email, which the user registry refuses: the
    dialog cannot edit anyone.
   */
  lemma EditResubmitsTakenEmail(users: map<UserId, AdminRoutes.StoredUser>, u: ListedUser)
    requires u.id in users && users[u.id].email == u.email
    ensures var (editing, form) := OpenModal(Some(u));
            AdminRoutes.EmailTaken(users, Submit(editing, form).email)
  {
    assert users[u.id].email == Submit(Some(u.id), OpenModal(Some(u)).1).email;
  }
}
