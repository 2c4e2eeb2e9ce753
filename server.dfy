/**
 * The storefront server: admin and user login, registration, order submission
 * and the two order listings, over two JSON record lists (users, orders) that
 * each handler reads whole and, when it changes them, writes back whole.
 * Token signing and verification, password hashing and comparison, ids and
 * clocks are supplied from outside.
 */
module Server {
  import opened Wrappers
  import opened Text
  import opened Seqs
  import opened Attendees

  const DefaultAdminEmail := "admin@example.com"
  const DefaultAdminPass := "admin123"
  const AdminRole := "admin"
  const UserRole := "user"
  const PendingStatus := "pending"

  // Error messages sent back to the client.
  const IncompleteMsg := "Hiányos adatok."
  const BadCredentialsMsg := "Hibás belépési adatok."
  const DuplicateAccountMsg := "Ezzel az e-mail címmel már van fiók."
  const ForbiddenMsg := "forbidden"
  const UnauthorizedMsg := "unauthorized"

  /** A registered customer. `passHash` is the one-way hash of the password. */
  datatype User = User(id: int, email: string, name: string, passHash: string, createdAt: string)

  /** A stored order. `attendees` is kept as the client sent it. */
  datatype Order = Order(
    id: string,
    name: string,
    email: string,
    items: string,
    attendees: AttendeesJson,
    note: string,
    total: int,
    status: string,
    createdAt: string)

  /**
   * The body of `POST /api/orders`. A missing string field is "" (falsy);
   * fields with a default are None when absent.
   */
  datatype OrderRequest = OrderRequest(
    name: string,
    email: string,
    items: string,
    attendees: Option<AttendeesJson>,
    note: Option<string>,
    total: Option<int>,
    createdAt: Option<string>)

  /**
   * A JSON record file as `readJson` finds it: missing, unreadable or not
   * valid JSON; present but empty; or a JSON array of records.
   */
  datatype StoreFile<T> = Unreadable | EmptyText | Records(records: seq<T>)

  /** `readJson`: a failed read and an empty file both give the empty list. */
  function ReadJson<T>(f: StoreFile<T>): seq<T> {
    if f.Records? then f.records else []
  }

  /**
   * A list written back is read back unchanged; a file that cannot be read or
   * parsed, or is empty, reads as no records at all.
   */
  lemma StoreRoundTrip<T>(records: seq<T>, f: StoreFile<T>)
    ensures ReadJson(Records(records)) == records
    ensures !f.Records? ==> ReadJson(f) == []
  {
  }

  /** The claims a token carries. Verification is outside the model. */
  datatype Claims = Claims(email: string, role: string, name: Option<string>, userId: Option<int>, admin: bool)

  /** What a handler sends back. */
  datatype Response =
    | BadRequest(error: string)   // 400
    | Unauthorized(error: string) // 401
    | Forbidden(error: string)    // 403
    | TokenIssued(claims: Claims) // { token }: a token signed over these claims, valid for 7 days
    | Registered                  // { ok: true }
    | OrderSaved(id: string)      // { ok: true, id }
    | OrderList(orders: seq<Order>)

  function StatusCode(r: Response): int {
    match r
    case BadRequest(_) => 400
    case Unauthorized(_) => 401
    case Forbidden(_) => 403
    case _ => 200
  }

  /** `process.env.X || dflt`. */
  function EnvOr(v: Option<string>, dflt: string): string {
    if v.Some? && v.value != "" then v.value else dflt
  }

  /** The token of an `Authorization` header: a `Bearer ` prefix is stripped, anything else is taken whole. */
  function BearerToken(header: string): string {
    if |header| >= 7 && header[..7] == "Bearer " then header[7..] else header
  }

  /** The outcome of the `auth(requiredRole)` middleware. */
  datatype Gate = Admit(user: Claims) | Refuse(response: Response)

  /**
   * `auth(requiredRole)`: `verify` stands for `jwt.verify` with the server's
   * secret (None when it throws: bad signature, expired, malformed).
   */
  function Authorize(header: string, verify: string -> Option<Claims>, requiredRole: string): (g: Gate)
    ensures g == Refuse(Unauthorized(UnauthorizedMsg)) <==> verify(BearerToken(header)).None?
    ensures g == Refuse(Forbidden(ForbiddenMsg)) <==>
      verify(BearerToken(header)).Some? && requiredRole != "" && verify(BearerToken(header)).value.role != requiredRole
    ensures g.Admit? ==>
      verify(BearerToken(header)) == Some(g.user) && (requiredRole == "" || g.user.role == requiredRole)
    ensures (verify(BearerToken(header)).Some? &&
             (requiredRole == "" || verify(BearerToken(header)).value.role == requiredRole)) ==>
      g == Admit(verify(BearerToken(header)).value)
    ensures g.Refuse? ==> StatusCode(g.response) == 401 || StatusCode(g.response) == 403
  {
    match verify(BearerToken(header))
    case None => Refuse(Unauthorized(UnauthorizedMsg))
    case Some(dec) =>
      if requiredRole != "" && dec.role != requiredRole then Refuse(Forbidden(ForbiddenMsg)) else Admit(dec)
  }

  /** A valid admin token is refused with 403 on a user route, and a valid user token on the admin route. */
  lemma WrongRoleForbidden(header: string, verify: string -> Option<Claims>, c: Claims)
    requires verify(BearerToken(header)) == Some(c)
    ensures c.role == AdminRole ==> Authorize(header, verify, UserRole) == Refuse(Forbidden(ForbiddenMsg))
    ensures c.role == UserRole ==> Authorize(header, verify, AdminRole) == Refuse(Forbidden(ForbiddenMsg))
  {
  }

  /** `users.some(u => String(u.email).toLowerCase() === String(email).toLowerCase())`. */
  function EmailTaken(users: seq<User>, email: string): (b: bool)
    ensures b <==> exists k :: 0 <= k < |users| && CaseEq(users[k].email, email)
  {
    if users == [] then false
    else CaseEq(users[0].email, email) || EmailTaken(users[1..], email)
  }

  /** `users.find(...)` with the same case-insensitive e-mail test: the first match. */
  function FindUser(users: seq<User>, email: string): (r: Option<User>)
    ensures r.None? <==> !EmailTaken(users, email)
    ensures r.Some? ==>
      exists k :: 0 <= k < |users| && users[k] == r.value && CaseEq(r.value.email, email)
        && forall j :: 0 <= j < k ==> !CaseEq(users[j].email, email)
  {
    if users == [] then None
    else if CaseEq(users[0].email, email) then Some(users[0])
    else
      var r := FindUser(users[1..], email);
      if r.Some? then
        ghost var k :| 1 <= k + 1 < |users| && users[1..][k] == r.value && CaseEq(r.value.email, email)
          && forall j :: 0 <= j < k ==> !CaseEq(users[1..][j].email, email);
        assert users[k + 1] == r.value;
        r
      else r
  }

  /** The filter predicate of `/api/my-orders`. */
  function EmailIs(email: string): Order -> bool {
    (o: Order) => CaseEq(o.email, email)
  }

  /** The orders of `list` whose e-mail case-insensitively equals `email`, in stored order. */
  function OrdersOf(list: seq<Order>, email: string): seq<Order> {
    Filter(list, EmailIs(email))
  }

  /** The 400 check of `POST /api/orders`: `!name || !email || !items`. */
  predicate MissingOrderFields(req: OrderRequest) {
    req.name == "" || req.email == "" || req.items == ""
  }

  /** The order `POST /api/orders` stores for an accepted request. */
  function Accepted(req: OrderRequest, id: string, now: string): Order {
    Order(
      id, req.name, req.email, req.items,
      req.attendees.GetOr(Entries([])),
      req.note.GetOr(""),
      req.total.GetOr(0),
      PendingStatus,
      if req.createdAt.Some? && req.createdAt.value != "" then req.createdAt.value else now)
  }

  /** No two users whose e-mails are equal ignoring case. */
  predicate EmailsUnique(users: seq<User>) {
    forall j, k :: 0 <= j < k < |users| ==> !CaseEq(users[j].email, users[k].email)
  }

  predicate OrderIdsDistinct(list: seq<Order>) {
    forall j, k :: 0 <= j < k < |list| ==> list[j].id != list[k].id
  }

  class Backend {
    const adminEmail: string
    const adminPass: string
    var usersFile: StoreFile<User>
    var ordersFile: StoreFile<Order>

    /** Configuration from the environment, with the built-in defaults. */
    constructor (envAdminEmail: Option<string>, envAdminPass: Option<string>, users: StoreFile<User>, orders: StoreFile<Order>)
      ensures adminEmail == EnvOr(envAdminEmail, DefaultAdminEmail)
      ensures adminPass == EnvOr(envAdminPass, DefaultAdminPass)
      ensures usersFile == users && ordersFile == orders
    {
      adminEmail := EnvOr(envAdminEmail, DefaultAdminEmail);
      adminPass := EnvOr(envAdminPass, DefaultAdminPass);
      usersFile := users;
      ordersFile := orders;
    }

    /**
     * `POST /api/login`: the single admin account. The e-mail is compared
     * ignoring case, the password exactly; the token carries the e-mail as typed.
     */
    method Login(email: string, password: string) returns (r: Response)
      ensures r == BadRequest(IncompleteMsg) <==> email == "" || password == ""
      ensures r.TokenIssued? <==>
        email != "" && password != "" && CaseEq(email, adminEmail) && password == adminPass
      ensures r.TokenIssued? ==> r.claims == Claims(email, AdminRole, None, None, true)
      ensures !r.TokenIssued? && r != BadRequest(IncompleteMsg) ==> r == Unauthorized(BadCredentialsMsg)
    {
      if email == "" || password == "" {
        return BadRequest(IncompleteMsg);
      }
      if Lower(email) != Lower(adminEmail) {
        return Unauthorized(BadCredentialsMsg);
      }
      if password != adminPass {
        return Unauthorized(BadCredentialsMsg);
      }
      r := TokenIssued(Claims(email, AdminRole, None, None, true));
    }

    /**
     * `POST /api/register`: refuses a missing field or an e-mail already
     * registered (ignoring case) and leaves the file alone; otherwise prepends
     * the new user to the list read and writes the list back.
     * `passHash` is `bcrypt.hash(password)`, `id` and `now` the clock readings.
     */
    method Register(email: string, name: string, password: string, passHash: string, id: int, now: string)
      returns (r: Response)
      modifies this`usersFile
      ensures r == BadRequest(IncompleteMsg) <==> email == "" || name == "" || password == ""
      ensures r == BadRequest(DuplicateAccountMsg) <==>
        email != "" && name != "" && password != "" && EmailTaken(ReadJson(old(usersFile)), email)
      ensures r == Registered <==>
        email != "" && name != "" && password != "" && !EmailTaken(ReadJson(old(usersFile)), email)
      ensures r == Registered ==>
        usersFile == Records([User(id, email, name, passHash, now)] + ReadJson(old(usersFile)))
      ensures r != Registered ==> usersFile == old(usersFile)
      ensures !old(usersFile).Records? && email != "" && name != "" && password != "" ==>
        r == Registered && usersFile == Records([User(id, email, name, passHash, now)])
    {
      if email == "" || name == "" || password == "" {
        return BadRequest(IncompleteMsg);
      }
      var users := ReadJson(usersFile);
      if EmailTaken(users, email) {
        return BadRequest(DuplicateAccountMsg);
      }
      var user := User(id, email, name, passHash, now);
      users := [user] + users;
      usersFile := Records(users);
      r := Registered;
    }

    /**
     * `POST /api/user-login`: the first user whose e-mail matches ignoring
     * case; `passwordMatches` stands for `bcrypt.compare`.
     */
    method UserLogin(email: string, password: string, passwordMatches: (string, string) -> bool)
      returns (r: Response)
      ensures r == BadRequest(IncompleteMsg) <==> email == "" || password == ""
      ensures email != "" && password != "" && !EmailTaken(ReadJson(usersFile), email) ==>
        r == Unauthorized(BadCredentialsMsg)
      ensures r.TokenIssued? <==>
        && email != "" && password != ""
        && FindUser(ReadJson(usersFile), email).Some?
        && passwordMatches(password, FindUser(ReadJson(usersFile), email).value.passHash)
      ensures r.TokenIssued? ==>
        var u := FindUser(ReadJson(usersFile), email).value;
        r.claims == Claims(u.email, UserRole, Some(u.name), Some(u.id), false)
      ensures !r.TokenIssued? && r != BadRequest(IncompleteMsg) ==> r == Unauthorized(BadCredentialsMsg)
    {
      if email == "" || password == "" {
        return BadRequest(IncompleteMsg);
      }
      var users := ReadJson(usersFile);
      var u := FindUser(users, email);
      if u.None? {
        return Unauthorized(BadCredentialsMsg);
      }
      var ok := passwordMatches(password, u.value.passHash);
      if !ok {
        return Unauthorized(BadCredentialsMsg);
      }
      r := TokenIssued(Claims(u.value.email, UserRole, Some(u.value.name), Some(u.value.id), false));
    }

    /**
     * `POST /api/orders`: refuses a request without name, e-mail or items and
     * leaves the file alone; otherwise prepends the new pending order to the
     * list read and writes it back. `freshId` is the generated id.
     */
    method SubmitOrder(req: OrderRequest, freshId: string, now: string) returns (r: Response)
      modifies this`ordersFile
      ensures r.BadRequest? <==> MissingOrderFields(req)
      ensures r.BadRequest? ==> r.error == IncompleteMsg && ordersFile == old(ordersFile)
      ensures !r.BadRequest? ==>
        r == OrderSaved(freshId) && ordersFile == Records([Accepted(req, freshId, now)] + ReadJson(old(ordersFile)))
      ensures !old(ordersFile).Records? && !MissingOrderFields(req) ==>
        ordersFile == Records([Accepted(req, freshId, now)])
    {
      if req.name == "" || req.email == "" || req.items == "" {
        return BadRequest(IncompleteMsg);
      }
      var order := Accepted(req, freshId, now);
      var list := ReadJson(ordersFile);
      list := [order] + list;
      ordersFile := Records(list);
      r := OrderSaved(order.id);
    }

    /** `GET /api/orders`: the whole list, for an admin token only. */
    method AllOrders(header: string, verify: string -> Option<Claims>) returns (r: Response)
      ensures Authorize(header, verify, AdminRole).Refuse? ==> r == Authorize(header, verify, AdminRole).response
      ensures Authorize(header, verify, AdminRole).Admit? ==> r == OrderList(ReadJson(ordersFile))
    {
      var g := Authorize(header, verify, AdminRole);
      if g.Refuse? {
        return g.response;
      }
      r := OrderList(ReadJson(ordersFile));
    }

    /** `GET /api/my-orders`: for a user token, the orders placed under the token's e-mail. */
    method MyOrders(header: string, verify: string -> Option<Claims>) returns (r: Response)
      ensures Authorize(header, verify, UserRole).Refuse? ==> r == Authorize(header, verify, UserRole).response
      ensures Authorize(header, verify, UserRole).Admit? ==>
        r == OrderList(OrdersOf(ReadJson(ordersFile), Authorize(header, verify, UserRole).user.email))
    {
      var g := Authorize(header, verify, UserRole);
      if g.Refuse? {
        return g.response;
      }
      var list := ReadJson(ordersFile);
      r := OrderList(OrdersOf(list, g.user.email));
    }
  }

  // ---- Lemmas ----

  /** A user's listing holds exactly the stored orders with a matching e-mail, in stored order. */
  lemma OrdersOfExactly(list: seq<Order>, email: string, o: Order, a: seq<Order>, b: seq<Order>)
    ensures o in OrdersOf(list, email) <==> o in list && CaseEq(o.email, email)
    ensures OrdersOf(a + b, email) == OrdersOf(a, email) + OrdersOf(b, email)
  {
    FilterMembership(list, EmailIs(email), o);
    FilterAppend(a, b, EmailIs(email));
  }

  /** A newly prepended order heads the listing of every user whose e-mail matches it, and no one else's. */
  lemma NewOrderListedFirst(o: Order, list: seq<Order>, email: string)
    ensures OrdersOf([o] + list, email) == (if CaseEq(o.email, email) then [o] else []) + OrdersOf(list, email)
  {
    FilterAppend([o], list, EmailIs(email));
  }

  /**
   * Submitting then listing: the accepted order heads the new list, carries
   * the submitted e-mail, total and the id it was given, followed by every
   * earlier order in order, and it leads its submitter's own listing.
   */
  lemma SubmitThenList(before: StoreFile<Order>, req: OrderRequest, id: string, now: string)
    requires !MissingOrderFields(req)
    ensures var list := ReadJson(Records([Accepted(req, id, now)] + ReadJson(before)));
      && |list| == |ReadJson(before)| + 1
      && list[0].id == id && list[0].email == req.email && list[0].total == req.total.GetOr(0)
      && list[0].status == PendingStatus
      && list[1..] == ReadJson(before)
      && OrdersOf(list, req.email) == [list[0]] + OrdersOf(ReadJson(before), req.email)
  {
    var o := Accepted(req, id, now);
    NewOrderListedFirst(o, ReadJson(before), req.email);
    assert ([o] + ReadJson(before))[1..] == ReadJson(before);
  }

  /** What an accepted order keeps from the request, and the defaults for what it lacks. */
  lemma AcceptedDefaults(req: OrderRequest, id: string, now: string)
    ensures var o := Accepted(req, id, now);
      && o.id == id && o.name == req.name && o.email == req.email && o.items == req.items
      && o.status == PendingStatus
      && (req.total.None? ==> o.total == 0) && (req.total.Some? ==> o.total == req.total.value)
      && (req.attendees.None? ==> o.attendees == Entries([]))
      && (req.attendees.Some? ==> o.attendees == req.attendees.value)
      && (req.note.None? ==> o.note == "")
      && (req.note.Some? ==> o.note == req.note.value)
      && (req.createdAt.Some? && req.createdAt.value != "" ==> o.createdAt == req.createdAt.value)
      && (req.createdAt.None? || req.createdAt.value == "" ==> o.createdAt == now)
  {
  }

  /** Prepending an order with a fresh id keeps order ids distinct. */
  lemma FreshIdKeepsIdsDistinct(list: seq<Order>, o: Order)
    requires OrderIdsDistinct(list)
    requires forall k :: 0 <= k < |list| ==> list[k].id != o.id
    ensures OrderIdsDistinct([o] + list)
  {
    var l := [o] + list;
    forall j, k | 0 <= j < k < |l| ensures l[j].id != l[k].id {
      assert l[k] == list[k - 1];
      if j > 0 {
        assert l[j] == list[j - 1];
      }
    }
  }

  /** Registration keeps e-mails unique: it only prepends a user whose e-mail is not taken. */
  lemma RegisterKeepsEmailsUnique(users: seq<User>, u: User)
    requires EmailsUnique(users) && !EmailTaken(users, u.email)
    ensures EmailsUnique([u] + users)
  {
    var l := [u] + users;
    forall j, k | 0 <= j < k < |l| ensures !CaseEq(l[j].email, l[k].email) {
      assert l[k] == users[k - 1];
      if j > 0 {
        assert l[j] == users[j - 1];
      }
    }
  }
}
