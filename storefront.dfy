/**
 * How the pieces meet: the payload the cart posts at checkout is what
 * `POST /api/orders` receives, and the stored order's attendees are what the
 * attendee summary renders.
 */
module Storefront {
  import opened Wrappers
  import opened Text
  import opened Attendees
  import opened CartModel
  import opened Server

  /** The request body the server reads from a client payload (every field present). */
  function RequestOf(p: OrderPayload): OrderRequest {
    OrderRequest(
      p.name, p.email, p.items,
      Some(Entries(seq(|p.attendees|, k requires 0 <= k < |p.attendees| => Some(p.attendees[k])))),
      Some(p.note), Some(p.total), Some(p.createdAt))
  }

  /**
   * A cart that passes the client's checkout check is never refused by the
   * server's 400 check, and the stored order keeps the cart total and the
   * client's timestamp.
   */
  lemma CheckedOutOrderAccepted(lines: seq<Line>, name: string, email: string, note: string, now: string,
                                id: string, serverNow: string)
    requires name != "" && email != "" && lines != []
    requires forall k :: 0 <= k < |lines| ==> LineComplete(lines[k])
    ensures !MissingOrderFields(RequestOf(Payload(lines, name, email, note, now)))
    ensures var o := Accepted(RequestOf(Payload(lines, name, email, note, now)), id, serverNow);
      o.total == Total(lines) && o.status == PendingStatus && o.email == email
      && (now != "" ==> o.createdAt == now)
  {
    PayloadOfCompleteCart(lines, name, email, note, now);
  }

  /**
   * The attendee summary of an order placed from a well-formed, complete cart
   * is never empty: neither for the posted body nor for the order the server
   * stores, which the order lists render.
   */
  lemma CheckedOutSummaryNonEmpty(lines: seq<Line>, name: string, email: string, note: string, now: string,
                                  id: string, serverNow: string)
    requires lines != [] && WellFormed(lines)
    requires forall k :: 0 <= k < |lines| ==> LineComplete(lines[k])
    ensures var att := RequestOf(Payload(lines, name, email, note, now)).attendees.value;
      att.Entries? && Join(Parts(att.entries), " | ") != ""
    ensures var o := Accepted(RequestOf(Payload(lines, name, email, note, now)), id, serverNow);
      o.attendees.Entries? && Join(Parts(o.attendees.entries), " | ") != ""
  {
    var p := Payload(lines, name, email, note, now);
    PayloadOfCompleteCart(lines, name, email, note, now);
    var es := RequestOf(p).attendees.value.entries;
    var e := es[0];
    assert e == Some(GroupOf(lines[0]));
    if lines[0].id != TableTicket {
      var names := NamesOf(e);
      assert names == lines[0].attendees[..lines[0].qty];
      assert HasVisibleChar(names[0]);
      assert names[0] != "";
      EntryPartsShape(e);
    }
    assert !Silent(es[0]);
    RenderEmptyIff(es);
  }

  /**
   * The checkout scenario: one ball ticket raised to two seats with only the
   * first name filled is refused at that line; filling the second name lets
   * it through with both names in cart order.
   */
  method CheckoutScenario() {
    var cart := new Cart();
    cart.Add(Ball);
    cart.ChangeQty(Ball.id, 1);
    cart.SetAttendeeName(Ball.id, 0, "Anna");
    assert cart.lines[0].attendees == ["Anna", ""];
    var r := cart.Checkout("Kiss Péter", "peter@example.com", "", "2025-12-31T20:00:00Z");
    assert !HasVisibleChar(cart.lines[0].attendees[1]);
    assert |cart.lines| == 1 && !LineComplete(cart.lines[0]);
    assert r.MissingNames? && r.at == 0;
    cart.SetAttendeeName(Ball.id, 1, "Bela");
    assert cart.lines[0].attendees == ["Anna", "Bela"];
    assert HasVisibleChar("Anna") by { assert !IsWhitespace("Anna"[0]); }
    assert HasVisibleChar("Bela") by { assert !IsWhitespace("Bela"[0]); }
    r := cart.Checkout("Kiss Péter", "peter@example.com", "", "2025-12-31T20:00:00Z");
    assert r.Submit? && r.order.attendees[0] == GroupOf(cart.lines[0]);
    assert cart.lines[0].qty == 2 && SeatNames(cart.lines[0]) == ["Anna", "Bela"];
    assert r.order.attendees[0].names == Some(["Anna", "Bela"]);
  }

  /**
   * The account scenario: registering the same e-mail twice fails the second
   * time; logging in with a wrong password is refused; with the right one the
   * user gets a user-role token for that e-mail.
   */
  method AccountScenario(passwordMatches: (string, string) -> bool)
    requires passwordMatches("pw1", "hash-of-pw1") && !passwordMatches("wrong", "hash-of-pw1")
  {
    var b := new Backend(None, None, Unreadable, Unreadable);
    var r := b.Register("a@b.com", "Anna", "pw1", "hash-of-pw1", 1, "t1");
    assert r == Registered;
    r := b.Register("A@B.com", "Anna", "pw1", "hash-of-pw1-again", 2, "t2");
    assert CaseEq("a@b.com", "A@B.com");
    assert r == BadRequest(DuplicateAccountMsg);
    var anna := User(1, "a@b.com", "Anna", "hash-of-pw1", "t1");
    assert b.usersFile == Records([anna]);
    assert FindUser([anna], "a@b.com") == Some(anna);
    r := b.UserLogin("a@b.com", "wrong", passwordMatches);
    assert r == Unauthorized(BadCredentialsMsg);
    r := b.UserLogin("a@b.com", "pw1", passwordMatches);
    assert r.TokenIssued? && r.claims.email == "a@b.com" && r.claims.role == UserRole;
  }
}
